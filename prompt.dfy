/**
 * The fixed instruction text sent to the text-generation service: the AP
 * style rules, then the article's title and content inserted verbatim.
 */
module Prompt {
  import opened Wrappers

  /** The style rules that open every prompt. */
  const Rules: string :=
    "You are an expert AP style editor for Digital Commerce 360 Pakistan. Convert this article to Associated Press format with these requirements:\n"
    + "\n"
    + "STRUCTURE:\n"
    + "- Lead paragraph: Maximum 35 words, answers who/what/when/where/why\n"
    + "- Inverted pyramid structure\n"
    + "- Short paragraphs (1-3 sentences)\n"
    + "- Include dateline if location-specific: KARACHI, Pakistan - \n"
    + "\n"
    + "STYLE:\n"
    + "- Third person voice only\n"
    + "- Use 'said' for attribution\n"
    + "- Numbers: Spell out one-nine, numerals for 10+\n"
    + "- Dates: Month Day, Year format\n"
    + "- Attribution required for all claims\n"
    + "- No editorial language\n"
    + "\n"
    + "PAKISTAN E-COMMERCE FOCUS:\n"
    + "- Currency: PKR format\n"
    + "- Company names: Full legal names first reference\n"
    + "- Government sources: Proper titles\n"
    + "- Industry terminology: Clear definitions\n"
    + "\n"
    + "Original Article:\n"

  const TitleLabel: string := "Title: "
  const ContentLabel: string := "\nContent: "
  const Closing: string := "\n\nReturn ONLY the converted article content in proper HTML format with paragraphs."

  /** Everything before the title. */
  const Head: string := Rules + TitleLabel

  /** The prompt for an article: the template with `title` and `content` substituted. */
  function BuildApConversionPrompt(title: string, content: string): string
  {
    Fill(Head, title, content)
  }

  /** The template shape: a fixed head, the title, the content label, the content, the closing. */
  function Fill(head: string, title: string, content: string): string
  {
    head + title + ContentLabel + content + Closing
  }

  /**
   * The prompt is the head (the rules followed by "Title: "), the title
   * verbatim, "\nContent: ", the content verbatim, and the closing
   * instruction, in that order.
   */
  lemma PromptLayout(title: string, content: string)
    ensures var p := BuildApConversionPrompt(title, content);
      && |p| == |Head| + |title| + |ContentLabel| + |content| + |Closing|
      && p[..|Head|] == Head
      && p[|Head|..|Head| + |title|] == title
      && p[|Head| + |title|..|Head| + |title| + |ContentLabel|] == ContentLabel
      && p[|Head| + |title| + |ContentLabel|..|p| - |Closing|] == content
      && p[|p| - |Closing|..] == Closing
  {
    FillLayout(Head, title, content);
  }

  /** The layout of a filled template. */
  lemma FillLayout(head: string, title: string, content: string)
    ensures var p := Fill(head, title, content);
      && |p| == |head| + |title| + |ContentLabel| + |content| + |Closing|
      && p[..|head|] == head
      && p[|head|..|head| + |title|] == title
      && p[|head| + |title|..|head| + |title| + |ContentLabel|] == ContentLabel
      && p[|head| + |title| + |ContentLabel|..|p| - |Closing|] == content
      && p[|p| - |Closing|..] == Closing
  {
  }

  /**
   * Recovers the title and content from a prompt, given the title's length
   * (the title may itself contain the content label, so the split is not
   * determined by the text alone); None if `p` is not a prompt of that shape.
   */
  function ParsePrompt(p: string, titleLength: nat): Option<(string, string)> {
    Split(p, Head, titleLength)
  }

  /** Splits `p` as a filled template with the given head and title length. */
  function Split(p: string, head: string, titleLength: nat): Option<(string, string)> {
    var fixed := |head| + titleLength + |ContentLabel| + |Closing|;
    if fixed <= |p|
       && p[..|head|] == head
       && p[|head| + titleLength..|head| + titleLength + |ContentLabel|] == ContentLabel
       && p[|p| - |Closing|..] == Closing
    then Some((p[|head|..|head| + titleLength], p[|head| + titleLength + |ContentLabel|..|p| - |Closing|]))
    else None
  }

  /** The title and content can be read back out of the prompt built from them. */
  lemma ParseBuild(title: string, content: string)
    ensures ParsePrompt(BuildApConversionPrompt(title, content), |title|) == Some((title, content))
  {
    SplitFill(Head, title, content);
  }

  lemma SplitFill(head: string, title: string, content: string)
    ensures Split(Fill(head, title, content), head, |title|) == Some((title, content))
  {
    FillLayout(head, title, content);
  }

  /** Every string that parses as a prompt is the prompt built from what it parses to. */
  lemma BuildParse(p: string, titleLength: nat)
    requires ParsePrompt(p, titleLength).Some?
    ensures var (title, content) := ParsePrompt(p, titleLength).value;
      |title| == titleLength && BuildApConversionPrompt(title, content) == p
  {
    FillSplit(p, Head, titleLength);
  }

  lemma FillSplit(p: string, head: string, titleLength: nat)
    requires Split(p, head, titleLength).Some?
    ensures var (title, content) := Split(p, head, titleLength).value;
      |title| == titleLength && Fill(head, title, content) == p
  {
    var a := |head| + titleLength;
    var b := a + |ContentLabel|;
    var c := |p| - |Closing|;
    JoinSlices(p, |head|, a, b, c);
  }

  /** Cutting a sequence at four points and joining the five pieces gives it back. */
  lemma JoinSlices<T>(s: seq<T>, i: nat, j: nat, k: nat, l: nat)
    requires i <= j <= k <= l <= |s|
    ensures s[..i] + s[i..j] + s[j..k] + s[k..l] + s[l..] == s
  {
  }

  /** Articles whose titles have the same length get the same prompt only if title and content agree. */
  lemma BuildInjective(t1: string, c1: string, t2: string, c2: string)
    requires |t1| == |t2|
    requires BuildApConversionPrompt(t1, c1) == BuildApConversionPrompt(t2, c2)
    ensures t1 == t2 && c1 == c2
  {
    FillInjective(Head, t1, c1, t2, c2);
  }

  lemma FillInjective(head: string, t1: string, c1: string, t2: string, c2: string)
    requires |t1| == |t2|
    requires Fill(head, t1, c1) == Fill(head, t2, c2)
    ensures t1 == t2 && c1 == c2
  {
    SplitFill(head, t1, c1);
    SplitFill(head, t2, c2);
  }
}
