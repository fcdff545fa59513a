/**
 * The story record (Story.java): five strings given to the constructor and
 * returned unchanged by the getters. A datatype value cannot be updated, which
 * is what the Java class achieves by assigning its private fields only in the
 * constructor and offering no setters; the getters are the destructors.
 */
module StoryRecord {

  /** Constructor parameters in the order of the Java constructor:
      date, title, section, url, author. */
  datatype Story = Story(date: string, title: string, section: string, url: string, author: string)

  /** Documentation of the field order, which Dafny checks without proof work:
      each getter returns exactly the argument given at its position, no field is
      swapped with another, and nothing is validated or defaulted. */
  lemma GettersReturnArguments(date: string, title: string, section: string, url: string, author: string)
    ensures var s := Story(date, title, section, url, author);
      && s.date == date && s.title == title && s.section == section
      && s.url == url && s.author == author
  {
  }

  /** Documentation of the model's value semantics, which Dafny checks without
      proof work: two stories are equal exactly when all five getters agree, and
      duplicates are just equal values. */
  lemma StoryIsItsFields(s: Story, t: Story)
    ensures s == t <==>
      && s.date == t.date && s.title == t.title && s.section == t.section
      && s.url == t.url && s.author == t.author
  {
  }
}
