/** The two strings a journal card shows: a headline and a preview of the
    entry's text. */
module JournalCard {
  import opened Text

  const HeadlineLength: nat := 50
  const PreviewLength: nat := 100
  const Ellipsis := "..."

  /** `s.substring(0, n)` for a non-negative `n`. */
  function Prefix(s: string, n: nat): (p: string)
    ensures |p| == if |s| <= n then |s| else n
    ensures StartsWith(s, p)
  {
    if |s| <= n then s else s[..n]
  }

  /** `content.split("\n")[0] || content.substring(0, 50)`. */
  function Headline(content: string): (h: string)
    ensures StartsWith(content, h)
    ensures h == "" <==> content == ""
  {
    SplitHead(content, '\n');
    var firstLine := Split(content, '\n')[0];
    if firstLine != "" then firstLine else Prefix(content, HeadlineLength)
  }

  /** A non-empty first line is the headline in full, however long: it is the
      part of the content before the first line break. */
  lemma HeadlineIsFirstLine(content: string)
    requires |content| > 0 && content[0] != '\n'
    ensures StartsWith(content, Headline(content))
    ensures '\n' !in Headline(content)
    ensures |Headline(content)| > 0
    ensures |Headline(content)| < |content| ==> content[|Headline(content)|] == '\n'
  {
    SplitHead(content, '\n');
  }

  /** Content that opens with a line break has an empty first line, and its
      headline is the first fifty characters, the break included. */
  lemma HeadlineAfterLeadingBreak(content: string)
    requires |content| > 0 && content[0] == '\n'
    ensures Headline(content) == Prefix(content, HeadlineLength)
    ensures Headline(content)[0] == '\n'
  {
    assert '\n' in content && IndexOf(content, '\n') == 0;
    assert Split(content, '\n')[0] == "";
  }

  /** `content.length > 100 ? content.substring(0, 100) + "..." : content`. */
  function Preview(content: string): (p: string)
    ensures |content| <= PreviewLength ==> p == content
    ensures |content| > PreviewLength ==> |p| == PreviewLength + |Ellipsis| && p[PreviewLength..] == Ellipsis
    ensures StartsWith(p, Prefix(content, PreviewLength))
  {
    if |content| > PreviewLength then content[..PreviewLength] + Ellipsis else content
  }

  /** The preview equals the content exactly when nothing was cut, or when
      the content already is 100 characters followed by "..." (then the cut
      part and the appended ellipsis coincide). */
  lemma PreviewUnchangedIff(content: string)
    ensures Preview(content) == content <==>
      |content| <= PreviewLength
      || (|content| == PreviewLength + |Ellipsis| && content[PreviewLength..] == Ellipsis)
  {
    if |content| > PreviewLength && Preview(content) == content {
      assert |content| == PreviewLength + |Ellipsis|;
      assert content[PreviewLength..] == Preview(content)[PreviewLength..];
    }
    if |content| == PreviewLength + |Ellipsis| && content[PreviewLength..] == Ellipsis {
      assert content == content[..PreviewLength] + content[PreviewLength..];
    }
  }
}
