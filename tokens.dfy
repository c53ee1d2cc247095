/**
 * Tokens and the space-splitting lexer shared by every tokenizer variant, and
 * the growable token stream (`token_stream_t`) they append to.
 */
module Tokens {
  import opened Growth

  /** token_type_t. */
  datatype TokenKind = IdentifierKind | NumberKind | OperatorKind | WhitespaceKind | UnknownKind

  /** rift_token_t.  Only the staged tokenizer has a priority field; the other
      variants leave it 0. */
  datatype Token = Token(kind: TokenKind, value: string, line: nat, column: nat, priority: int)

  predicate SpaceFree(s: string)
  {
    forall i :: 0 <= i < |s| ==> s[i] != ' '
  }

  predicate AllSpaces(s: string)
  {
    forall i :: 0 <= i < |s| ==> s[i] == ' '
  }

  /** A lexeme as strtok hands it out: non-empty and without a separator. */
  predicate IsWord(w: string)
  {
    w != [] && SpaceFree(w)
  }

  /** The length of the run of non-space characters that starts `s`. */
  function WordLength(s: string): (n: nat)
    ensures n <= |s| && SpaceFree(s[..n])
    ensures n < |s| ==> s[n] == ' '
    ensures n == 0 <==> (s == [] || s[0] == ' ')
  {
    if s == [] || s[0] == ' ' then 0
    else
      var n := 1 + WordLength(s[1..]);
      assert s[..n] == [s[0]] + s[1..][..n - 1];
      n
  }

  /** strtok(input, " ") repeated until it returns NULL: the maximal runs of
      non-space characters, left to right.  Only ' ' separates; a tab does not. */
  function Lexemes(s: string): (ws: seq<string>)
    ensures forall i :: 0 <= i < |ws| ==> IsWord(ws[i])
    decreases |s|
  {
    if s == [] then []
    else if s[0] == ' ' then Lexemes(s[1..])
    else
      var n := WordLength(s);
      [s[..n]] + Lexemes(s[n..])
  }

  /** The characters of `s` other than ' ', in order. */
  function NonSpaces(s: string): string
  {
    if s == [] then [] else (if s[0] == ' ' then [] else [s[0]]) + NonSpaces(s[1..])
  }

  function Concat(ws: seq<string>): string
  {
    if ws == [] then [] else ws[0] + Concat(ws[1..])
  }

  /** The words separated by single spaces. */
  function Join(ws: seq<string>): string
  {
    if ws == [] then []
    else if |ws| == 1 then ws[0]
    else ws[0] + " " + Join(ws[1..])
  }

  lemma {:induction false} NonSpacesAppend(a: string, b: string)
    ensures NonSpaces(a + b) == NonSpaces(a) + NonSpaces(b)
  {
    if a == [] {
      assert a + b == b;
    } else {
      assert (a + b)[1..] == a[1..] + b;
      NonSpacesAppend(a[1..], b);
    }
  }

  lemma {:induction false} NonSpacesOfWord(w: string)
    requires SpaceFree(w)
    ensures NonSpaces(w) == w
  {
    if w != [] {
      NonSpacesOfWord(w[1..]);
    }
  }

  /** No character is lost, added or reordered: the lexemes laid end to end are
      the input without its spaces. */
  lemma {:induction false} LexemesKeepCharacters(s: string)
    ensures Concat(Lexemes(s)) == NonSpaces(s)
    decreases |s|
  {
    if s == [] {
    } else if s[0] == ' ' {
      LexemesKeepCharacters(s[1..]);
    } else {
      var n := WordLength(s);
      assert s == s[..n] + s[n..];
      LexemesKeepCharacters(s[n..]);
      NonSpacesAppend(s[..n], s[n..]);
      NonSpacesOfWord(s[..n]);
    }
  }

  /** The stream is empty exactly when the input is only spaces. */
  lemma {:induction false} LexemesEmpty(s: string)
    ensures Lexemes(s) == [] <==> AllSpaces(s)
    decreases |s|
  {
    if s != [] && s[0] == ' ' {
      LexemesEmpty(s[1..]);
      assert AllSpaces(s) <==> AllSpaces(s[1..]);
    }
  }

  lemma {:induction false} WordLengthOfWordThen(w: string, rest: string)
    requires SpaceFree(w)
    requires rest == [] || rest[0] == ' '
    ensures WordLength(w + rest) == |w|
  {
    if w != [] {
      assert (w + rest)[1..] == w[1..] + rest;
      WordLengthOfWordThen(w[1..], rest);
    }
  }

  lemma LexemesOfWordThen(w: string, rest: string)
    requires IsWord(w)
    requires rest == [] || rest[0] == ' '
    ensures Lexemes(w + rest) == [w] + Lexemes(rest)
  {
    WordLengthOfWordThen(w, rest);
    assert (w + rest)[..|w|] == w;
    assert (w + rest)[|w|..] == rest;
  }

  /** Splitting undoes joining with single spaces: each word comes back as
      one lexeme, in order. */
  lemma {:induction false} LexemesOfJoin(ws: seq<string>)
    requires forall i :: 0 <= i < |ws| ==> IsWord(ws[i])
    ensures Lexemes(Join(ws)) == ws
  {
    if ws == [] {
    } else if |ws| == 1 {
      LexemesOfWordThen(ws[0], []);
      assert ws[0] + [] == ws[0];
    } else {
      var rest := Join(ws[1..]);
      assert ws[0] + " " + rest == ws[0] + (" " + rest);
      LexemesOfWordThen(ws[0], " " + rest);
      assert (" " + rest)[1..] == rest;
      LexemesOfJoin(ws[1..]);
    }
  }

  /** token_stream_t: the tokens emitted so far and the allocated capacity. */
  class TokenStream {
    var tokens: seq<Token>
    var capacity: nat

    ghost predicate Valid()
      reads this
    {
      0 < capacity && |tokens| <= capacity
    }

    /** The stream as the tokenizers allocate it: empty, room for 10. */
    constructor ()
      ensures Valid() && tokens == [] && capacity == 10
    {
      tokens := [];
      capacity := 10;
    }

    /** The resize-then-store step of the tokenizer loops. */
    method Append(t: Token)
      requires Valid()
      modifies this
      ensures Valid()
      ensures tokens == old(tokens) + [t]
      ensures capacity == GrownCapacity(|old(tokens)|, old(capacity))
    {
      if |tokens| >= capacity {
        capacity := capacity * 2;
      }
      tokens := tokens + [t];
    }
  }
}
