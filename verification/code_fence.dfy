/**
 * Code-fence extraction from an AI reply: the regular expression
 * /```(\w*)\n([\s\S]*?)\n```/ of `callAI` (server/server.js:102-103), stated
 * over `seq<char>`. A match starts with three backticks, continues with a tag
 * of word characters and a newline, then a body, and ends at a newline
 * followed by three backticks. JavaScript reports the leftmost match and, the
 * body being lazy, the shortest body from that start.
 */
module CodeFence {
  import opened Wrappers

  /** The extracted fragment: the body and its declared language. */
  datatype CodeBlock = CodeBlock(content: string, language: string)

  /** `\w` of a JavaScript regular expression without the `u` flag. */
  predicate IsWordChar(ch: char) {
    ('a' <= ch <= 'z') || ('A' <= ch <= 'Z') || ('0' <= ch <= '9') || ch == '_'
  }

  /** Three backticks start at position `i`. */
  predicate OpensAt(s: string, i: int) {
    0 <= i && i + 3 <= |s| && s[i] == '`' && s[i + 1] == '`' && s[i + 2] == '`'
  }

  /** A newline followed by three backticks starts at position `c`. */
  predicate ClosesAt(s: string, c: int) {
    0 <= c && c + 4 <= |s| && s[c] == '\n' && s[c + 1] == '`' && s[c + 2] == '`' && s[c + 3] == '`'
  }

  predicate AllWord(s: string, from: int, to: int)
    requires 0 <= from <= to <= |s|
  {
    forall j :: from <= j < to ==> IsWordChar(s[j])
  }

  /**
   * The pattern matches `s` with the opening fence at `i`, the tag
   * `s[i + 3..t]`, the newline at `t`, the body `s[t + 1..c]` and the
   * closing fence at `c`.
   */
  ghost predicate IsMatch(s: string, i: int, t: int, c: int) {
    && OpensAt(s, i)
    && ClosesAt(s, c)
    && i + 3 <= t < c
    && AllWord(s, i + 3, t)
    && s[t] == '\n'
  }

  /** The match a JavaScript engine reports: leftmost start, then shortest body. */
  ghost predicate IsLeftmostShortest(s: string, i: int, t: int, c: int) {
    && IsMatch(s, i, t, c)
    && (forall i', t', c' :: i' < i ==> !IsMatch(s, i', t', c'))
    && (forall c' :: c' < c ==> !IsMatch(s, i, t, c'))
  }

  /**
   * What `callAI` builds from the match: group 2 as the content and group 1,
   * or "plaintext" when group 1 is empty, as the language.
   */
  function Captured(s: string, i: nat, t: nat, c: nat): CodeBlock
    requires i + 3 <= t < c <= |s|
  {
    CodeBlock(s[t + 1..c], if t == i + 3 then "plaintext" else s[i + 3..t])
  }

  /** End of the maximal run of word characters that starts at `j`. */
  function WordRunEnd(s: string, j: nat): (t: nat)
    requires j <= |s|
    ensures j <= t <= |s| && AllWord(s, j, t)
    ensures t < |s| ==> !IsWordChar(s[t])
    decreases |s| - j
  {
    if j < |s| && IsWordChar(s[j]) then WordRunEnd(s, j + 1) else j
  }

  /** The first closing fence at or after `from`, if any. */
  function FindClose(s: string, from: nat): (c: Option<nat>)
    requires from <= |s|
    ensures c.Some? ==> from <= c.value && ClosesAt(s, c.value)
    ensures forall k :: from <= k && (c.None? || k < c.value) ==> !ClosesAt(s, k)
    decreases |s| - from
  {
    if from == |s| then None
    else if ClosesAt(s, from) then Some(from)
    else FindClose(s, from + 1)
  }

  /** `\w*` is greedy and `\n` is not a word character, so the tag of a match is the whole word run. */
  lemma TagIsWordRun(s: string, i: nat)
    requires OpensAt(s, i)
    ensures forall t, c :: IsMatch(s, i, t, c) ==> t == WordRunEnd(s, i + 3)
  {
    var w := WordRunEnd(s, i + 3);
    forall t, c | IsMatch(s, i, t, c) ensures t == w {
      assert !IsWordChar(s[t]);
      assert w < |s| ==> !IsWordChar(s[w]);
    }
  }

  /** The match from start `i` with the shortest body, if the pattern matches there. */
  function MatchFrom(s: string, i: nat): (m: Option<(nat, nat)>)
    requires i <= |s|
    ensures m.Some? ==> IsMatch(s, i, m.value.0, m.value.1)
    ensures m.Some? ==> forall c' :: c' < m.value.1 ==> !IsMatch(s, i, m.value.0, c')
    ensures m.None? ==> forall t, c :: !IsMatch(s, i, t, c)
  {
    if !OpensAt(s, i) then None
    else
      TagIsWordRun(s, i);
      var t := WordRunEnd(s, i + 3);
      if t == |s| || s[t] != '\n' then None
      else
        match FindClose(s, t + 1)
        case None => None
        case Some(c) => Some((t, c))
  }

  /** The leftmost match starting at `i` or later. */
  function Search(s: string, i: nat): (m: Option<(nat, nat, nat)>)
    requires i <= |s|
    ensures m.Some? ==> i <= m.value.0 && IsMatch(s, m.value.0, m.value.1, m.value.2)
    ensures m.Some? ==> forall c' :: c' < m.value.2 ==> !IsMatch(s, m.value.0, m.value.1, c')
    ensures m.Some? ==> forall j, t, c :: i <= j < m.value.0 ==> !IsMatch(s, j, t, c)
    ensures m.None? ==> forall j, t, c :: i <= j ==> !IsMatch(s, j, t, c)
    decreases |s| - i
  {
    match MatchFrom(s, i)
    case Some((t, c)) => Some((i, t, c))
    case None => if i == |s| then None else Search(s, i + 1)
  }

  /**
   * `content.match(/```(\w*)\n([\s\S]*?)\n```/)` followed by the code block
   * construction of server/server.js:103: no block exactly when nothing
   * matches, and otherwise the captures of the leftmost-shortest match.
   */
  function ExtractCodeBlock(content: string): (r: Option<CodeBlock>)
    ensures r.None? <==> forall i, t, c :: !IsMatch(content, i, t, c)
    ensures r.Some? ==> exists i: nat, t: nat, c: nat ::
      IsLeftmostShortest(content, i, t, c) && r.value == Captured(content, i, t, c)
  {
    match Search(content, 0)
    case None => None
    case Some((i, t, c)) =>
      assert IsLeftmostShortest(content, i, t, c);
      Some(Captured(content, i, t, c))
  }

  /** The reported match is unique: start, tag end and closing fence are all determined by `s`. */
  lemma LeftmostShortestUnique(s: string, i: nat, t: nat, c: nat, i': nat, t': nat, c': nat)
    requires IsLeftmostShortest(s, i, t, c) && IsLeftmostShortest(s, i', t', c')
    ensures i == i' && t == t' && c == c'
  {
    TagIsWordRun(s, i);
  }

  /** Whatever the leftmost-shortest match is, extraction returns its captures. */
  lemma ExtractIsLeftmostShortest(s: string, i: nat, t: nat, c: nat)
    requires IsLeftmostShortest(s, i, t, c)
    ensures ExtractCodeBlock(s) == Some(Captured(s, i, t, c))
  {
    var m := Search(s, 0);
    assert m.Some?;
    var (i', t', c') := m.value;
    assert IsLeftmostShortest(s, i', t', c');
    LeftmostShortestUnique(s, i, t, c, i', t', c');
  }

  /** A fenced block as a model writes it: fence, tag, newline, body, newline, fence. */
  function Fenced(tag: string, body: string): string {
    "```" + tag + "\n" + body + "\n```"
  }

  /** Where the pieces of `Fenced(tag, body) + rest` sit. */
  lemma FencedLayout(tag: string, body: string, rest: string)
    ensures var s := Fenced(tag, body) + rest;
      var t := 3 + |tag|;
      var c := t + 1 + |body|;
      && |s| == c + 4 + |rest|
      && OpensAt(s, 0)
      && s[3..t] == tag
      && s[t] == '\n'
      && s[t + 1..c] == body
      && ClosesAt(s, c)
  {
    var s := Fenced(tag, body) + rest;
    var t := 3 + |tag|;
    var c := t + 1 + |body|;
    assert s == "```" + tag + "\n" + body + "\n```" + rest;
    assert s[..3] == "```";
    assert s[3..t] == tag;
    assert s[t + 1..c] == body;
    assert s[c..c + 4] == "\n```";
  }

  /**
   * Extraction inverts `Fenced`: a reply that begins with a fenced block
   * yields exactly that body and tag (or "plaintext" for an empty tag),
   * whatever follows it — later blocks are ignored. The body must not itself
   * contain a closing fence, and the tag must be word characters.
   */
  lemma {:induction false} ExtractFenced(tag: string, body: string, rest: string)
    requires forall j :: 0 <= j < |tag| ==> IsWordChar(tag[j])
    requires forall k :: !ClosesAt(body, k)
    ensures ExtractCodeBlock(Fenced(tag, body) + rest)
         == Some(CodeBlock(body, if tag == "" then "plaintext" else tag))
  {
    var s := Fenced(tag, body) + rest;
    var t := 3 + |tag|;
    var c := t + 1 + |body|;
    FencedLayout(tag, body, rest);
    forall j | 3 <= j < t ensures IsWordChar(s[j]) {
      assert s[j] == s[3..t][j - 3];
    }
    assert IsMatch(s, 0, t, c);
    NoEarlierClose(s, t, c, body);
    assert IsLeftmostShortest(s, 0, t, c);
    ExtractIsLeftmostShortest(s, 0, t, c);
  }

  /** A body without a closing fence, followed by a newline, closes nowhere before that newline. */
  lemma NoEarlierClose(s: string, t: int, c: int, body: string)
    requires 0 <= t < c < |s| && s[t + 1..c] == body && s[c] == '\n'
    requires forall k :: !ClosesAt(body, k)
    ensures forall c' :: t < c' < c ==> !ClosesAt(s, c')
  {
    forall c' | t < c' < c ensures !ClosesAt(s, c') {
      var k := c' - t - 1;
      if c' + 4 <= c {
        assert !ClosesAt(body, k);
        assert s[c'] == body[k] && s[c' + 1] == body[k + 1];
        assert s[c' + 2] == body[k + 2] && s[c' + 3] == body[k + 3];
      }
    }
  }
}
