/**
 * The approximate token count of agent/token_counter.go: split the text into
 * whitespace-separated words and charge each word a quarter of its
 * characters, rounded up, plus one.
 */
module TokenCounter {
  import opened Wrappers
  import opened Ollama

  /** Unicode white space, the separators of Go's `strings.Fields`. */
  predicate IsSpace(c: char)
  {
    c == ' ' || c == '\t' || c == '\n' || c == '\U{B}' || c == '\U{C}' || c == '\r' ||
    c == '\U{85}' || c == '\U{A0}' || c == '\U{1680}' || ('\U{2000}' <= c <= '\U{200A}') ||
    c == '\U{2028}' || c == '\U{2029}' || c == '\U{202F}' || c == '\U{205F}' || c == '\U{3000}'
  }

  /** The length of the word `s` starts with. */
  function WordLength(s: string): (n: nat)
    ensures n <= |s|
    ensures forall i :: 0 <= i < n ==> !IsSpace(s[i])
    ensures n < |s| ==> IsSpace(s[n])
  {
    if s == [] || IsSpace(s[0]) then 0 else 1 + WordLength(s[1..])
  }

  /** `strings.Fields`: the maximal runs of non-space characters, in order. */
  function Fields(s: string): (r: seq<string>)
    ensures forall k :: 0 <= k < |r| ==> r[k] != []
    decreases |s|
  {
    if s == [] then []
    else if IsSpace(s[0]) then Fields(s[1..])
    else
      var n := WordLength(s);
      [s[..n]] + Fields(s[n..])
  }

  /** One word's charge: `(runeCount + 3) / 4`, plus one for the space after it. */
  function WordTokens(word: string): nat
  {
    (|word| + 3) / 4 + 1
  }

  function SumWords(words: seq<string>): nat
  {
    if words == [] then 0 else WordTokens(words[0]) + SumWords(words[1..])
  }

  /** `countContentTokens`. */
  function CountContentTokens(content: string): (r: nat)
    ensures r >= 2 * |Fields(content)|
  {
    SumWordsAtLeastTwoEach(Fields(content));
    SumWords(Fields(content))
  }

  lemma {:induction false} WordLengthBeforeSpace(a: string, c: char, b: string)
    requires IsSpace(c)
    ensures WordLength(a + [c] + b) == WordLength(a)
    decreases |a|
  {
    if a == [] {
      assert a + [c] + b == [c] + b;
    } else if !IsSpace(a[0]) {
      WordLengthBeforeSpace(a[1..], c, b);
      assert (a + [c] + b)[1..] == a[1..] + [c] + b;
    }
  }

  /** Splitting at a white-space character splits the words: the words of each side, in order. */
  lemma {:induction false} FieldsSplit(a: string, c: char, b: string)
    requires IsSpace(c)
    ensures Fields(a + [c] + b) == Fields(a) + Fields(b)
    decreases |a|
  {
    var s := a + [c] + b;
    if a == [] {
      assert s[1..] == b;
    } else if IsSpace(a[0]) {
      assert s[1..] == a[1..] + [c] + b;
      FieldsSplit(a[1..], c, b);
    } else {
      var n := WordLength(a);
      WordLengthBeforeSpace(a, c, b);
      assert s[..n] == a[..n];
      assert s[n..] == a[n..] + [c] + b;
      FieldsSplit(a[n..], c, b);
    }
  }

  lemma {:induction false} SumWordsAppend(x: seq<string>, y: seq<string>)
    ensures SumWords(x + y) == SumWords(x) + SumWords(y)
  {
    if x != [] {
      SumWordsAppend(x[1..], y);
      assert (x + y)[1..] == x[1..] + y;
    } else {
      assert x + y == y;
    }
  }

  /**
   * The count depends only on the words, not on the white space between
   * them: joining two texts with a space adds their counts.
   */
  lemma CountAdditive(a: string, b: string)
    ensures CountContentTokens(a + " " + b) == CountContentTokens(a) + CountContentTokens(b)
  {
    FieldsSplit(a, ' ', b);
    SumWordsAppend(Fields(a), Fields(b));
  }

  lemma {:induction false} SumWordsAtLeastTwoEach(words: seq<string>)
    requires forall k :: 0 <= k < |words| ==> words[k] != []
    ensures SumWords(words) >= 2 * |words|
  {
    if words != [] {
      SumWordsAtLeastTwoEach(words[1..]);
    }
  }

  lemma {:induction false} FieldsEmpty(s: string)
    ensures Fields(s) == [] <==> forall i :: 0 <= i < |s| ==> IsSpace(s[i])
    decreases |s|
  {
    if s != [] && IsSpace(s[0]) {
      FieldsEmpty(s[1..]);
      assert forall i :: 1 <= i < |s| ==> s[i] == s[1..][i - 1];
    }
  }

  /**
   * Every word costs at least two tokens, so the count is zero exactly for
   * empty or all-white-space content.
   */
  lemma CountBounds(content: string)
    ensures CountContentTokens(content) >= 2 * |Fields(content)|
    ensures CountContentTokens(content) == 0 <==> forall i :: 0 <= i < |content| ==> IsSpace(content[i])
  {
    SumWordsAtLeastTwoEach(Fields(content));
    FieldsEmpty(content);
  }

  /** A single word is charged a quarter of its characters, rounded up, plus one. */
  lemma SingleWord(word: string)
    requires word != [] && forall i :: 0 <= i < |word| ==> !IsSpace(word[i])
    ensures CountContentTokens(word) == (|word| + 3) / 4 + 1
  {
    WholeWord(word);
    assert word[..|word|] == word;
    assert word[|word|..] == [];
    assert Fields(word) == [word] + Fields([]);
    assert Fields(word) == [word];
    assert SumWords([word]) == WordTokens(word) + SumWords([]);
  }

  lemma {:induction false} WholeWord(s: string)
    requires forall i :: 0 <= i < |s| ==> !IsSpace(s[i])
    ensures WordLength(s) == |s|
  {
    if s != [] {
      WholeWord(s[1..]);
    }
  }

  /** A tool call's charge: three, its name, and its arguments' JSON when it can be encoded. */
  function ToolCallTokens(call: ToolCall): nat
  {
    3 + CountContentTokens(call.name) +
    (match call.arguments case Some(json) => CountContentTokens(json) case None => 0)
  }

  function ToolCallsTokens(calls: seq<ToolCall>): nat
  {
    if calls == [] then 0 else ToolCallTokens(calls[0]) + ToolCallsTokens(calls[1..])
  }

  /** `CountTokens`: three for the message structure, the content, the role and every tool call. */
  function CountTokens(message: Message): (r: nat)
    ensures r >= 3 + 2 * |Fields(message.content)| + 2 * |Fields(message.role)|
  {
    3 + CountContentTokens(message.content) + CountContentTokens(message.role) + ToolCallsTokens(message.toolCalls)
  }

  /** Tool calls add up independently, each at least three. */
  lemma {:induction false} ToolCallsAdditive(x: seq<ToolCall>, y: seq<ToolCall>)
    ensures ToolCallsTokens(x + y) == ToolCallsTokens(x) + ToolCallsTokens(y)
    ensures ToolCallsTokens(x) >= 3 * |x|
  {
    if x != [] {
      ToolCallsAdditive(x[1..], y);
      assert (x + y)[1..] == x[1..] + y;
    } else {
      assert x + y == y;
    }
  }

  /** Every message costs at least three tokens, plus three for each tool call. */
  lemma CountTokensLowerBound(message: Message)
    ensures CountTokens(message) >= 3 + 3 * |message.toolCalls|
    ensures message.toolCalls == [] ==>
              CountTokens(message) == 3 + CountContentTokens(message.content) + CountContentTokens(message.role)
  {
    ToolCallsAdditive(message.toolCalls, []);
  }
}
