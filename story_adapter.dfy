/**
 * The date formatting of StoryAdapter.java: a timestamp such as
 * "2020-01-01T10:00:00Z" becomes "2020-01-01  10:00:00".
 */
module StoryAdapter {
  import opened Wrappers
  import opened JsonTree
  import opened StoryRecord
  import opened QueryUtils

  /** The date part (characters 0-9), two spaces, and the time part
      (characters 11-18). Shorter input makes the Java `substring` calls fail,
      so at least 19 characters are required. */
  function FormatDate(date: string): (r: string)
    requires |date| >= 19
    ensures |r| == 20
    ensures forall i :: 0 <= i < 10 ==> r[i] == date[i]
    ensures r[10] == ' ' && r[11] == ' '
    ensures forall i :: 12 <= i < 20 ==> r[i] == date[i - 1]
  {
    date[0..10] + "  " + date[11..19]
  }

  /** Two timestamps format alike exactly when they agree on the date and time
      characters: the separator at index 10 and everything from index 19 on are
      dropped. */
  lemma FormatDateKeepsOnlyDateAndTime(d1: string, d2: string)
    requires |d1| >= 19 && |d2| >= 19
    ensures FormatDate(d1) == FormatDate(d2) <==>
      forall i :: 0 <= i < 19 && i != 10 ==> d1[i] == d2[i]
  {
    var r1, r2 := FormatDate(d1), FormatDate(d2);
    if forall i :: 0 <= i < 19 && i != 10 ==> d1[i] == d2[i] {
      assert forall i :: 0 <= i < 20 ==> r1[i] == r2[i];
    }
    if r1 == r2 {
      forall i | 0 <= i < 19 && i != 10
        ensures d1[i] == d2[i]
      {
        if i < 10 {
          assert r1[i] == d1[i] && r2[i] == d2[i];
        } else {
          assert r1[i + 1] == d1[i] && r2[i + 1] == d2[i];
        }
      }
    }
  }

  /** The output depends only on the first 19 characters. */
  lemma FormatDateIgnoresSuffix(date: string)
    requires |date| >= 19
    ensures FormatDate(date) == FormatDate(date[..19])
  {
    FormatDateKeepsOnlyDateAndTime(date, date[..19]);
  }

  /** A story element with no fields at all still builds, with date "" and author
      "N/A"; that date is too short for FormatDate, where the Java `substring`
      call would throw. */
  lemma MissingDateCannotBeFormatted()
    ensures StoryOf(JObj(map[])) == Some(Story("", "", "", "", NoAvailable))
    ensures |StoryOf(JObj(map[])).value.date| < 19
  {
  }
}
