/**
 * The text the handler builds once the trigger fires
 * (app/fully_automated_jira_github.py:72, 113, 119-132, 144-145): the trigger
 * test, the issue-body sanitiser, the ticket summary and description, and
 * the confirmation comment with its target URL.
 */
module Compose {
  import Text
  import Sequences

  const Trigger := "/jira"

  /** `'/jira' in s.lower()` (and `in s.casefold()`), with ASCII case folding. */
  predicate HasTrigger(s: string) {
    Text.Contains(Text.Lower(s), Trigger)
  }

  /** The test of the comprehension at lines 119-122: `"/jira" not in line.casefold()`. */
  function KeepLine(): string -> bool {
    line => !HasTrigger(line)
  }

  /** The lines of the issue body that the comprehension keeps. */
  function KeptLines(body: string): seq<string> {
    Sequences.Filter(Text.SplitLines(body), KeepLine())
  }

  /** `issue_body`: the kept lines joined by '\n'. */
  function SanitizeBody(body: string): string {
    Text.Join(KeptLines(body), '\n')
  }

  const SummaryPrefix := "[Github] "

  /** `summary = f"[Github] {issue_title}"`. */
  function Summary(title: string): string {
    SummaryPrefix + title
  }

  const AttributionStart := "*Ticket created via Github comment by "
  const BodyHeading := "*Original Issue Body:*"
  const OriginLabel := "*Created from Github issue:* "

  /** `description`: attribution line, blank line, heading, sanitised body, blank line, issue link. */
  function Description(commenter: string, issueBody: string, issueUrl: string): string {
    AttributionStart + commenter + "*" + "\n\n" + BodyHeading + "\n" + issueBody + "\n\n" + OriginLabel + issueUrl
  }

  /** `jira_link = f"{Config.JIRA_SERVER}/browse/{new_issue.key}"`. */
  function BrowseLink(server: string, key: string): string {
    server + "/browse/" + key
  }

  const ConfirmationHeading := "**Jira Ticket created!**"

  /** `msg`: a heading line, then a Markdown link whose text is the key and whose target is the browse link. */
  function Confirmation(server: string, key: string): string {
    ConfirmationHeading + "\n" + "key: [" + key + "](" + BrowseLink(server, key) + ")"
  }

  /** The URL `post_github_comment` posts to: `f"{issue_url}/comments"`. */
  function CommentsUrl(apiUrl: string): string {
    apiUrl + "/comments"
  }

  /** Detection ignores ASCII case: `/JIRA` fires, text without the token does not. */
  lemma TriggerExamples()
    ensures HasTrigger("please file /JIRA now")
    ensures !HasTrigger("no trigger here")
  {
    var upper := "please file /JIRA now";
    assert Text.Lower(upper)[12..17] == "/jira";
    assert Text.OccursAt(Text.Lower(upper), Trigger, 12);
    var plain := "no trigger here";
    assert '/' !in plain;
    NoSlashNoTrigger(plain);
  }

  /** Text that starts with the trigger, in any case, fires. */
  lemma TriggerAtStart(s: string)
    requires |s| >= |Trigger| && Text.Lower(s[..|Trigger|]) == Trigger
    ensures HasTrigger(s)
  {
    assert Text.Lower(s)[..|Trigger|] == Text.Lower(s[..|Trigger|]);
    assert Text.OccursAt(Text.Lower(s), Trigger, 0);
  }

  /** Text without a '/' cannot contain the trigger. */
  lemma NoSlashNoTrigger(s: string)
    requires '/' !in s
    ensures !HasTrigger(s)
  {
    forall i | 0 <= i <= |s| - |Trigger|
      ensures !Text.OccursAt(Text.Lower(s), Trigger, i)
    {
      assert s[i] in s;
      assert Text.Lower(s)[i] != '/';
    }
  }

  /** A comment without a `body` key (read as `''`) does not trigger. */
  lemma EmptyTextHasNoTrigger()
    ensures !HasTrigger("")
  {
    assert !Text.OccursAt(Text.Lower(""), Trigger, 0);
  }

  /** Lower-casing first changes nothing: detection depends only on the lower-cased text. */
  lemma TriggerIgnoresCase(s: string)
    ensures HasTrigger(Text.Lower(s)) == HasTrigger(s)
  {
    Text.LowerIdempotent(s);
  }

  /**
   * The kept lines are exactly the body's lines without the trigger, each as
   * often as in the body, in their original order.
   */
  lemma KeptLinesExactly(body: string, line: string)
    ensures line in KeptLines(body) <==> line in Text.SplitLines(body) && !HasTrigger(line)
    ensures multiset(KeptLines(body))[line] ==
      if HasTrigger(line) then 0 else multiset(Text.SplitLines(body))[line]
    ensures Sequences.IsSubsequence(KeptLines(body), Text.SplitLines(body))
  {
    Sequences.FilterMultiplicity(Text.SplitLines(body), KeepLine(), line);
    Sequences.FilterIsSubsequence(Text.SplitLines(body), KeepLine());
  }

  /** Lines free of the trigger stay free of it once joined: no match can span a '\n'. */
  lemma {:induction false} JoinedLinesHaveNoTrigger(lines: seq<string>)
    requires forall line :: line in lines ==> !HasTrigger(line)
    ensures !HasTrigger(Text.Join(lines, '\n'))
    decreases |lines|
  {
    if |lines| > 1 {
      var rest := Text.Join(lines[1..], '\n');
      assert lines[0] in lines;
      assert forall line :: line in lines[1..] ==> line in lines;
      JoinedLinesHaveNoTrigger(lines[1..]);
      Text.LowerAppend(lines[0] + ['\n'], rest);
      Text.LowerAppend(lines[0], ['\n']);
      assert Text.Lower(['\n']) == ['\n'];
      assert Text.Lower(Text.Join(lines, '\n')) == Text.Lower(lines[0]) + ['\n'] + Text.Lower(rest);
      if HasTrigger(Text.Join(lines, '\n')) {
        Text.ContainsAcrossSeparator(Text.Lower(lines[0]), '\n', Text.Lower(rest), Trigger);
      }
    } else if |lines| == 0 {
      assert !Text.OccursAt(Text.Lower([]), Trigger, 0);
    }
  }

  /** The sanitised body never contains the trigger, in any case. */
  lemma SanitizedBodyHasNoTrigger(body: string)
    ensures !HasTrigger(SanitizeBody(body))
  {
    forall line | line in KeptLines(body)
      ensures !HasTrigger(line)
    {
    }
    JoinedLinesHaveNoTrigger(KeptLines(body));
  }

  /** The sanitised body splits back into exactly the kept lines. */
  lemma SanitizedBodySplitsIntoKeptLines(body: string)
    requires KeptLines(body) != []
    ensures Text.Split(SanitizeBody(body), '\n') == KeptLines(body)
  {
    forall line | line in KeptLines(body)
      ensures '\n' !in line
    {
    }
    Text.JoinSplit(KeptLines(body), '\n');
  }

  /** Of three lines, the middle one naming the trigger is dropped and the others kept in order. */
  lemma SanitizeDropsTriggerLine(first: string, middle: string, last: string)
    requires '\n' !in first && '\n' !in middle && '\n' !in last && last != ""
    requires !HasTrigger(first) && HasTrigger(middle) && !HasTrigger(last)
    ensures SanitizeBody(first + "\n" + middle + "\n" + last) == first + "\n" + last
  {
    var body := first + "\n" + middle + "\n" + last;
    ThreeLines(first, middle, last);
    assert Text.SplitLines(body) == [first, middle, last];
    var keep := KeepLine();
    assert keep(first) && !keep(middle) && keep(last);
    assert Sequences.Filter([last], keep) == [last];
    assert Sequences.Filter([middle, last], keep) == [last];
    assert KeptLines(body) == [first, last];
    assert [first, last][1..] == [last];
    assert Text.Join([first, last], '\n') == first + "\n" + last;
  }

  lemma ThreeLines(first: string, middle: string, last: string)
    requires '\n' !in first && '\n' !in middle && '\n' !in last
    ensures Text.Split(first + "\n" + middle + "\n" + last, '\n') == [first, middle, last]
  {
    assert first + "\n" + middle + "\n" + last == first + "\n" + (middle + "\n" + last);
    SplitAtNewline(first, middle + "\n" + last);
    TwoLines(middle, last);
    Text.SplitNoSeparator(first, '\n');
  }

  /** The body `desc`, `/jira`, `more` is sanitised to `desc`, `more`. */
  lemma SanitizeExample()
    ensures SanitizeBody("desc\n/jira\nmore") == "desc\nmore"
  {
    TriggerAtStart("/jira");
    NoSlashNoTrigger("desc");
    NoSlashNoTrigger("more");
    SanitizeDropsTriggerLine("desc", "/jira", "more");
    assert "desc" + "\n" + "/jira" + "\n" + "more" == "desc\n/jira\nmore";
    assert "desc" + "\n" + "more" == "desc\nmore";
  }

  /** The summary is the fixed prefix followed by the issue title, which can be read back. */
  lemma SummaryCarriesTitle(title: string)
    ensures Summary(title)[..|SummaryPrefix|] == SummaryPrefix
    ensures Summary(title)[|SummaryPrefix|..] == title
  {
  }

  /**
   * Read as lines, the description is the attribution, a blank line, the
   * heading, the lines of the body, a blank line and the origin link.
   */
  lemma DescriptionLayout(commenter: string, issueBody: string, issueUrl: string)
    requires '\n' !in commenter && '\n' !in issueUrl
    ensures Text.Split(Description(commenter, issueBody, issueUrl), '\n') ==
      [AttributionStart + commenter + "*", "", BodyHeading]
      + Text.Split(issueBody, '\n')
      + ["", OriginLabel + issueUrl]
  {
    var attribution := AttributionStart + commenter + "*";
    var origin := OriginLabel + issueUrl;
    assert Description(commenter, issueBody, issueUrl)
      == attribution + "\n\n" + BodyHeading + "\n" + issueBody + "\n\n" + origin;
    FramedLines(attribution, BodyHeading, issueBody, origin);
  }

  lemma FramedLines(top: string, heading: string, middle: string, bottom: string)
    requires '\n' !in top && '\n' !in heading && '\n' !in bottom
    ensures Text.Split(top + "\n\n" + heading + "\n" + middle + "\n\n" + bottom, '\n') ==
      [top, "", heading] + Text.Split(middle, '\n') + ["", bottom]
  {
    var tail := middle + "\n" + ("" + "\n" + bottom);
    var rest := "" + "\n" + (heading + "\n" + tail);
    assert top + "\n\n" + heading + "\n" + middle + "\n\n" + bottom == top + "\n" + rest;
    SplitAtNewline(top, rest);
    SplitAtNewline("", heading + "\n" + tail);
    SplitAtNewline(heading, tail);
    SplitAtNewline(middle, "" + "\n" + bottom);
    SplitAtNewline("", bottom);
    Text.SplitNoSeparator(top, '\n');
    Text.SplitNoSeparator(heading, '\n');
    Text.SplitNoSeparator(bottom, '\n');
  }

  /**
   * Read as lines, the confirmation is the heading and a link whose text is
   * the ticket key and whose target is the ticket's browse link.
   */
  lemma ConfirmationLayout(server: string, key: string)
    requires '\n' !in server && '\n' !in key
    ensures Text.Split(Confirmation(server, key), '\n') ==
      [ConfirmationHeading, "key: [" + key + "](" + BrowseLink(server, key) + ")"]
  {
    var link := "key: [" + key + "](" + BrowseLink(server, key) + ")";
    assert Confirmation(server, key) == ConfirmationHeading + "\n" + link;
    TwoLines(ConfirmationHeading, link);
  }

  lemma TwoLines(first: string, second: string)
    requires '\n' !in first && '\n' !in second
    ensures Text.Split(first + "\n" + second, '\n') == [first, second]
  {
    SplitAtNewline(first, second);
    Text.SplitNoSeparator(first, '\n');
    Text.SplitNoSeparator(second, '\n');
  }

  lemma SplitAtNewline(a: string, b: string)
    ensures Text.Split(a + "\n" + b, '\n') == Text.Split(a, '\n') + Text.Split(b, '\n')
  {
    Text.SplitConcat(a, b, '\n');
  }
}
