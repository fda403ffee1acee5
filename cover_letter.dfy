/**
 * The cover letter writer (agent 7): the answer is split at its first letter
 * marker and the first summary marker after it, with fixed defaults and
 * fallbacks for answers that do not follow the format, and reviewer issues
 * are rendered as a numbered list for the revision prompt.
 */
module CoverLetterWriter {
  import opened Text
  import opened Wrappers

  /** `s.split(sep, 1)` when `sep` occurs in `s`: the text before its first occurrence and the text after it. */
  function SplitOnce(s: String, sep: String): (r: Option<(String, String)>)
    requires |sep| > 0
    ensures r.None? <==> !Contains(s, sep)
    ensures r.Some? ==> s == r.value.0 + sep + r.value.1 && Find(r.value.0 + sep, sep) == |r.value.0|
  {
    var i := Find(s, sep);
    if i < 0 then None
    else
      assert s == s[..i] + sep + s[i + |sep|..];
      FirstOccurrenceKept(s[..i] + sep, s[i + |sep|..], sep, i);
      Some((s[..i], s[i + |sep|..]))
  }

  /** The first occurrence of `sep` in a prefix of `s + t` that contains it is the first in `s + t`. */
  lemma FirstOccurrenceKept(s: String, t: String, sep: String, i: nat)
    requires OccursAt(s, sep, i) && forall k :: 0 <= k < i ==> !OccursAt(s + t, sep, k)
    ensures Find(s, sep) == i
  {
    forall k | 0 <= k < i ensures !OccursAt(s, sep, k) {
      assert !OccursAt(s + t, sep, k);
      if k + |sep| <= |s| {
        assert (s + t)[k..k + |sep|] == s[k..k + |sep|];
      }
    }
    FindFirst(s, sep, i);
  }

  /** Splitting `a + sep + b`, where `sep` first occurs right after `a`, gives back `a` and `b`. */
  lemma SplitOnceOf(a: String, sep: String, b: String)
    requires |sep| > 0 && Find(a + sep, sep) == |a|
    ensures SplitOnce(a + sep + b, sep) == Some((a, b))
  {
    var s := a + sep + b;
    assert OccursAt(a + sep, sep, |a|);
    forall k | 0 <= k < |a| ensures !OccursAt(s, sep, k) {
      assert !OccursAt(a + sep, sep, k);
      assert s[k..k + |sep|] == (a + sep)[k..k + |sep|];
    }
    assert s[|a|..|a| + |sep|] == sep;
    FindFirst(s, sep, |a|);
    assert s[..|a|] == a && s[|a| + |sep|..] == b;
  }

  /**
   * The letter and the note read from an answer: the text after the first
   * `first` marker up to the first `second` marker after it, and the rest,
   * both stripped. Without `second` the note is `defaultNote`; without
   * `first` the whole stripped answer is the letter.
   */
  function Sections(content: String, first: String, second: String, defaultNote: String): (r: (String, String))
    requires |first| > 0 && |second| > 0
    ensures !Contains(content, first) ==> r == (Strip(content), defaultNote)
  {
    match SplitOnce(content, first)
    case None => (Strip(content), defaultNote)
    case Some((_, rest)) =>
      match SplitOnce(rest, second)
      case None => (Strip(rest), defaultNote)
      case Some((letter, note)) => (Strip(letter), Strip(note))
  }

  /** An answer laid out as asked — anything, `first`, the letter, `second`, the note — is read back into its two parts. */
  lemma SectionsOf(pre: String, first: String, letter: String, second: String, note: String, defaultNote: String)
    requires |first| > 0 && |second| > 0
    requires Find(pre + first, first) == |pre| && Find(letter + second, second) == |letter|
    ensures Sections(pre + first + (letter + second + note), first, second, defaultNote) == (Strip(letter), Strip(note))
  {
    SplitOnceOf(pre, first, letter + second + note);
    SplitOnceOf(letter, second, note);
  }

  /** A marker that is absent after the first marker leaves the default note and the stripped rest as the letter. */
  lemma NoSecondMarker(pre: String, first: String, rest: String, second: String, defaultNote: String)
    requires |first| > 0 && |second| > 0
    requires Find(pre + first, first) == |pre| && !Contains(rest, second)
    ensures Sections(pre + first + rest, first, second, defaultNote) == (Strip(rest), defaultNote)
  {
    SplitOnceOf(pre, first, rest);
  }

  datatype CoverLetter = CoverLetter(coverLetter: String, summary: String)

  const DefaultSummary: String := "Generated a tailored cover letter highlighting key qualifications and achievements."
  const NoContent: String := "Error: No content generated"

  /**
   * `generate_cover_letter` after the model answered `content`: an empty
   * letter falls back to the raw answer, or to an error text when the answer
   * is empty. Client errors propagate unchanged.
   */
  function GenerateCoverLetter(reply: Result<String>): (r: Result<CoverLetter>)
    ensures reply.Err? ==> r == Err(reply.error)
    ensures reply.Ok? ==> r.Ok? && r.value.coverLetter != []
    ensures reply.Ok? && reply.value == [] ==> r == Ok(CoverLetter(NoContent, DefaultSummary))
  {
    match reply
    case Err(e) => Err(e)
    case Ok(content) =>
      var (letter, summary) := Sections(content, "COVER_LETTER:", "SUMMARY:", DefaultSummary);
      var final := if letter != [] then letter else if content != [] then content else NoContent;
      Ok(CoverLetter(final, summary))
  }

  /** A well-formed answer gives its stripped letter and summary. */
  lemma GeneratedFromMarkers(pre: String, letter: String, summary: String)
    requires Find(pre + "COVER_LETTER:", "COVER_LETTER:") == |pre|
    requires Find(letter + "SUMMARY:", "SUMMARY:") == |letter|
    requires Strip(letter) != []
    ensures GenerateCoverLetter(Ok(pre + "COVER_LETTER:" + (letter + "SUMMARY:" + summary)))
      == Ok(CoverLetter(Strip(letter), Strip(summary)))
  {
    SectionsOf(pre, "COVER_LETTER:", letter, "SUMMARY:", summary, DefaultSummary);
  }

  /** An answer without any marker is the letter as a whole, stripped, when it is not blank. */
  lemma GeneratedWithoutMarker(content: String)
    requires !Contains(content, "COVER_LETTER:") && !AllSpace(content)
    ensures GenerateCoverLetter(Ok(content)) == Ok(CoverLetter(Strip(content), DefaultSummary))
  {
  }

  datatype Revision = Revision(coverLetter: String, revisionNotes: String)

  const DefaultNotes: String := "Cover letter revised based on feedback."
  const PreservedNotes: String := "Error during revision - original letter preserved"

  /** `revise_cover_letter` after the model answered: an empty revised letter keeps the original. */
  function ReviseCoverLetter(original: String, reply: Result<String>): (r: Result<Revision>)
    ensures reply.Err? ==> r == Err(reply.error)
    ensures reply.Ok? ==> r.Ok? && (original != [] ==> r.value.coverLetter != [])
    ensures reply.Ok? && reply.value == [] ==> r == Ok(Revision(original, PreservedNotes))
  {
    match reply
    case Err(e) => Err(e)
    case Ok(content) =>
      var (letter, notes) := Sections(content, "REVISED_COVER_LETTER:", "REVISION_NOTES:", DefaultNotes);
      if letter == [] then Ok(Revision(original, PreservedNotes)) else Ok(Revision(letter, notes))
  }

  /** A well-formed revision answer gives its stripped letter and notes. */
  lemma RevisedFromMarkers(original: String, pre: String, letter: String, notes: String)
    requires Find(pre + "REVISED_COVER_LETTER:", "REVISED_COVER_LETTER:") == |pre|
    requires Find(letter + "REVISION_NOTES:", "REVISION_NOTES:") == |letter|
    requires Strip(letter) != []
    ensures ReviseCoverLetter(original, Ok(pre + "REVISED_COVER_LETTER:" + (letter + "REVISION_NOTES:" + notes)))
      == Ok(Revision(Strip(letter), Strip(notes)))
  {
    SectionsOf(pre, "REVISED_COVER_LETTER:", letter, "REVISION_NOTES:", notes, DefaultNotes);
  }

  /** A reviewer issue: a record with optional `issue`, `location` and `fix` texts, or any other value shown as text. */
  datatype Issue = Record(fields: map<String, String>) | Other(text: String)

  /** `issue.get(key, 'N/A')`. */
  function Field(fields: map<String, String>, key: String): String {
    if key in fields then fields[key] else "N/A"
  }

  /** What follows an issue's number: the three record fields on their own indented lines, or the value's text. */
  function IssueBody(issue: Issue): String {
    match issue
    case Record(fields) =>
      Field(fields, "issue") + "\n   Location: " + Field(fields, "location") + "\n   Fix: " + Field(fields, "fix")
    case Other(text) => text
  }

  /** The entry for the issue numbered `n`. */
  function IssueText(n: nat, issue: Issue): String {
    NatToString(n) + ". " + IssueBody(issue)
  }

  /** The entries of `issues`, numbered from 1 in order. */
  function IssueEntries(issues: seq<Issue>): (r: seq<String>)
    ensures |r| == |issues|
  {
    seq(|issues|, k requires 0 <= k < |issues| => IssueText(k + 1, issues[k]))
  }

  /** `_format_issues`: "None" for no issues, else the numbered entries on separate lines. */
  function FormattedIssues(issues: seq<Issue>): (r: String)
    ensures issues == [] ==> r == "None"
  {
    if issues == [] then "None" else Join("\n", IssueEntries(issues))
  }

  /** The number in front of the entry for the `k`-th issue reads back as `k + 1`. */
  lemma EntryNumbered(issues: seq<Issue>, k: nat)
    requires k < |issues|
    ensures var e := IssueEntries(issues)[k];
      var dot := Find(e, ". ");
      && dot == |NatToString(k + 1)|
      && ParseInt(e[..dot]) == Some(k + 1)
  {
    NumberReadsBack(k + 1, IssueBody(issues[k]));
  }

  lemma NumberReadsBack(n: nat, body: String)
    ensures var e := NatToString(n) + ". " + body;
      var dot := Find(e, ". ");
      && dot == |NatToString(n)|
      && ParseInt(e[..dot]) == Some(n)
  {
    var d := NatToString(n);
    DigitsNoDot(d);
    SplitOnceOf(d, ". ", body);
    assert (d + ". " + body)[..|d|] == d;
    ParseIntToString(n);
  }

  /** No occurrence of ". " starts inside a run of digits; the one right after it is the first. */
  lemma DigitsNoDot(d: String)
    requires AllDigits(d)
    ensures Find(d + ". ", ". ") == |d|
  {
    var s := d + ". ";
    forall k | 0 <= k < |d| ensures !OccursAt(s, ". ", k) {
      assert s[k] == d[k];
      if k + 2 <= |s| {
        assert s[k..k + 2][0] == s[k];
      }
    }
    assert s[|d|..|d| + 2] == ". ";
    FindFirst(s, ". ", |d|);
  }

  /** `_format_issues` as the loop that collects the entries. */
  method FormatIssues(issues: seq<Issue>) returns (r: String)
    ensures r == FormattedIssues(issues)
  {
    if |issues| == 0 {
      return "None";
    }
    var formatted: seq<String> := [];
    ghost var entries := IssueEntries(issues);
    for i := 0 to |issues|
      invariant formatted == entries[..i]
    {
      formatted := formatted + [IssueText(i + 1, issues[i])];
      TakeSnoc(entries, i);
    }
    TakeAll(entries);
    r := Join("\n", formatted);
  }

  /**
   * The user-feedback part of the revision prompt: present only when the
   * feedback is given and not blank, and then it carries the feedback as
   * given.
   */
  function UserFeedbackSection(feedback: Option<String>): (r: String)
    ensures r != [] <==> feedback.Some? && !AllSpace(feedback.value)
    ensures r != [] ==> exists i :: OccursAt(r, feedback.value, i)
  {
    match feedback
    case Some(f) =>
      if Strip(f) != [] then
        var head := "\n\nUSER FEEDBACK (Additional instructions from the candidate):\n";
        assert OccursAt(head + f + "\n", f, |head|) by {
          assert (head + f + "\n")[|head|..|head| + |f|] == f;
        }
        head + f + "\n"
      else []
    case None => []
  }
}
