/** Layer-name annotations.

    A layer name carries its structural role as a bracketed token, `(bone)` or
    `[bone]`, matched without regard to case.  The exporter compiles one
    pattern per role, searches a name with it, and derives the clean name by
    deleting every match in one left-to-right pass and trimming the
    whitespace at both ends.  Both exporter variants use the same four
    patterns, so they are defined once here.
 */
module Tags {

  /** The four annotation patterns. */
  datatype Tag = BoneTag | MergeTag | SlotTag | SkinTag

  /** The word between the brackets, in lower case. */
  function Word(t: Tag): string
  {
    match t
    case BoneTag => "bone"
    case MergeTag => "merge"
    case SlotTag => "slot"
    case SkinTag => "skin"
  }

  /** Length of a whole token, brackets included. */
  function TokenLength(t: Tag): nat
  {
    |Word(t)| + 2
  }

  /** The round-bracket spelling of a token, e.g. "(bone)". */
  function Token(t: Tag): string
  {
    "(" + Word(t) + ")"
  }

  /** Case-insensitive match of a name character `c` against the lower-case
      ASCII letter `p` of a pattern.  Besides the upper-case ASCII letter,
      the regular-expression engine also folds LATIN SMALL LETTER LONG S onto
      `s`, KELVIN SIGN onto `k`, and both dotted capital and dotless small I
      onto `i`. */
  predicate LetterMatches(c: char, p: char)
  {
    c == p
    || ('a' <= p <= 'z' && c as int == p as int - 32)
    || (p == 's' && c == '\U{017F}')
    || (p == 'k' && c == '\U{212A}')
    || (p == 'i' && (c == '\U{0130}' || c == '\U{0131}'))
  }

  /** The letters of `a` match the word `w` one for one. */
  predicate WordMatches(a: string, w: string)
  {
    |a| == |w| && forall k :: 0 <= k < |w| ==> LetterMatches(a[k], w[k])
  }

  /** `x` is one whole token for `t`: an opening bracket, the word, and the
      closing bracket of the same style. */
  predicate IsToken(x: string, t: Tag)
  {
    |x| == TokenLength(t)
    && ((x[0] == '(' && x[|x| - 1] == ')') || (x[0] == '[' && x[|x| - 1] == ']'))
    && WordMatches(x[1..|x| - 1], Word(t))
  }

  /** The pattern for `t` matches `s` at position `i`. */
  predicate MatchAt(s: string, i: nat, t: Tag)
  {
    i + TokenLength(t) <= |s| && IsToken(s[i..i + TokenLength(t)], t)
  }

  /** `pattern.search(name)` succeeds. */
  predicate HasTag(s: string, t: Tag)
  {
    exists i :: 0 <= i < |s| && MatchAt(s, i, t)
  }

  /** `pattern.sub('', name)`: delete the non-overlapping matches found in a
      single left-to-right scan.  Text that closes up into a new token after
      a deletion is not rescanned. */
  function RemoveTag(s: string, t: Tag): (r: string)
    ensures |r| <= |s|
    decreases |s|
  {
    if |s| == 0 then ""
    else if MatchAt(s, 0, t) then RemoveTag(s[TokenLength(t)..], t)
    else [s[0]] + RemoveTag(s[1..], t)
  }

  /** A name the pattern matches loses at least one whole token. */
  lemma {:induction false} RemoveTagShortens(s: string, t: Tag)
    requires HasTag(s, t)
    ensures |RemoveTag(s, t)| <= |s| - TokenLength(t)
    decreases |s|
  {
    if !MatchAt(s, 0, t) {
      var i :| 0 <= i < |s| && MatchAt(s, i, t);
      MatchAtShift(s, i - 1, t);
      RemoveTagShortens(s[1..], t);
    }
  }

  /** The characters `str.strip()` removes: those for which `str.isspace()`
      holds. */
  predicate IsSpace(c: char)
  {
    ('\t' <= c <= '\r') || ('\U{001C}' <= c <= ' ') || c == '\U{0085}' || c == '\U{00A0}'
    || c == '\U{1680}' || ('\U{2000}' <= c <= '\U{200A}') || c == '\U{2028}' || c == '\U{2029}'
    || c == '\U{202F}' || c == '\U{205F}' || c == '\U{3000}'
  }

  /** Drop leading whitespace.  Its properties are stated as lemmas
      (TrimStartShape), so that every clean name in the traversal does not
      carry them. */
  function TrimStart(s: string): string
  {
    if |s| > 0 && IsSpace(s[0]) then TrimStart(s[1..]) else s
  }

  /** Drop trailing whitespace (see TrimEndShape). */
  function TrimEnd(s: string): string
  {
    if |s| > 0 && IsSpace(s[|s| - 1]) then TrimEnd(s[..|s| - 1]) else s
  }

  /** `str.strip()` with no argument (see TrimShape). */
  function Trim(s: string): string
  {
    TrimEnd(TrimStart(s))
  }

  /** The clean name: `pattern.sub('', name).strip()`. */
  function StripTag(s: string, t: Tag): string
  {
    Trim(RemoveTag(s, t))
  }

  /** `sub` occurs in `s` at position `i`. */
  predicate OccursAt(s: string, i: nat, sub: string)
  {
    i + |sub| <= |s| && s[i..i + |sub|] == sub
  }

  /** Python's substring test `sub in s`. */
  predicate Contains(s: string, sub: string)
  {
    exists i :: 0 <= i <= |s| && OccursAt(s, i, sub)
  }

  lemma AppendAssociative<T>(a: seq<T>, b: seq<T>, c: seq<T>)
    ensures (a + b) + c == a + (b + c)
  {
  }

  /** Whether a token starts at a position depends only on the characters
      from there on. */
  lemma MatchAtShift(s: string, i: nat, t: Tag)
    requires 0 < |s|
    ensures MatchAt(s[1..], i, t) <==> MatchAt(s, i + 1, t)
  {
    if i + TokenLength(t) <= |s[1..]| {
      assert s[1..][i..i + TokenLength(t)] == s[i + 1..i + 1 + TokenLength(t)];
    }
  }

  /** A name the pattern does not match comes out of the deletion pass
      unchanged. */
  lemma {:induction false} RemoveTagWithoutTag(s: string, t: Tag)
    requires !HasTag(s, t)
    ensures RemoveTag(s, t) == s
    decreases |s|
  {
    if |s| > 0 {
      assert !MatchAt(s, 0, t);
      forall i | 0 <= i < |s[1..]| ensures !MatchAt(s[1..], i, t) {
        assert !MatchAt(s, i + 1, t);
        MatchAtShift(s, i, t);
      }
      RemoveTagWithoutTag(s[1..], t);
      RemoveTagKeepsFirst(s, t);
      assert s == [s[0]] + s[1..];
    }
  }

  /** Stripping the front removes a prefix of whitespace only, and what is
      left does not start with whitespace. */
  lemma {:induction false} TrimStartShape(s: string)
    ensures var r := TrimStart(s);
      |r| <= |s| && r == s[|s| - |r|..]
      && (|r| > 0 ==> !IsSpace(r[0]))
      && forall k :: 0 <= k < |s| - |r| ==> IsSpace(s[k])
    decreases |s|
  {
    if |s| > 0 && IsSpace(s[0]) {
      TrimStartShape(s[1..]);
    }
  }

  /** Stripping the back removes a suffix of whitespace only, and what is
      left does not end with whitespace. */
  lemma {:induction false} TrimEndShape(s: string)
    ensures var r := TrimEnd(s);
      |r| <= |s| && r == s[..|r|]
      && (|r| > 0 ==> !IsSpace(r[|r| - 1]))
      && forall k :: |r| <= k < |s| ==> IsSpace(s[k])
    decreases |s|
  {
    if |s| > 0 && IsSpace(s[|s| - 1]) {
      TrimEndShape(s[..|s| - 1]);
    }
  }

  /** `strip()` keeps a contiguous piece `s[i..i + |r|]` of the name,
      removing only whitespace, and the piece neither starts nor ends with
      whitespace. */
  lemma TrimShape(s: string)
    ensures var r := Trim(s);
      var i := |s| - |TrimStart(s)|;
      0 <= i && i + |r| <= |s| && r == s[i..i + |r|]
      && (|r| > 0 ==> !IsSpace(r[0]) && !IsSpace(r[|r| - 1]))
      && (forall k :: 0 <= k < i ==> IsSpace(s[k]))
      && (forall k :: i + |r| <= k < |s| ==> IsSpace(s[k]))
  {
    var a := TrimStart(s);
    var r := TrimEnd(a);
    var i := |s| - |a|;
    assert i + |r| <= |s| && r == s[i..i + |r|] && (forall k :: i + |r| <= k < |s| ==> IsSpace(s[k])) by {
      TrimStartShape(s);
      TrimEndShape(a);
      PieceOfSuffix(s, i, a, r);
    }
    assert |r| > 0 ==> !IsSpace(r[0]) && !IsSpace(r[|r| - 1]) by {
      TrimStartShape(s);
      TrimEndShape(a);
    }
    assert 0 <= i && forall k :: 0 <= k < i ==> IsSpace(s[k]) by {
      TrimStartShape(s);
    }
  }

  /** A prefix `r` of the suffix `a == s[i..]` is the piece `s[i..i + |r|]`,
      and what follows `r` in `a` follows it in `s`. */
  lemma PieceOfSuffix(s: string, i: nat, a: string, r: string)
    requires i <= |s| && a == s[i..] && |r| <= |a| && r == a[..|r|]
    requires forall k :: |r| <= k < |a| ==> IsSpace(a[k])
    ensures r == s[i..i + |r|]
    ensures forall k :: i + |r| <= k < |s| ==> IsSpace(s[k])
  {
    forall k | i + |r| <= k < |s| ensures IsSpace(s[k]) {
      assert s[k] == a[k - i];
    }
  }

  lemma TrimStartOfTrimmed(s: string)
    requires |s| == 0 || !IsSpace(s[0])
    ensures TrimStart(s) == s
  {
  }

  lemma TrimEndOfTrimmed(s: string)
    requires |s| == 0 || !IsSpace(s[|s| - 1])
    ensures TrimEnd(s) == s
  {
  }

  /** Trimming twice is trimming once. */
  lemma TrimIdempotent(s: string)
    ensures Trim(Trim(s)) == Trim(s)
  {
    var r := Trim(s);
    TrimShape(s);
    TrimStartOfTrimmed(r);
    TrimEndOfTrimmed(r);
  }

  /** `StripTag` is idempotent whenever its result no longer contains the
      token.  It is not idempotent in general: see StripTagNotIdempotent. */
  lemma StripTagIdempotentWhenClean(s: string, t: Tag)
    requires !HasTag(StripTag(s, t), t)
    ensures StripTag(StripTag(s, t), t) == StripTag(s, t)
  {
    RemoveTagWithoutTag(StripTag(s, t), t);
    TrimIdempotent(RemoveTag(s, t));
  }

  /** A deletion can close up the text around it into a new token, which the
      single pass leaves in place; a second strip then removes it. */
  lemma StripTagNotIdempotent(t: Tag)
    ensures StripTag("(" + Token(t) + Word(t) + ")", t) == Token(t)
    ensures StripTag(Token(t), t) == ""
  {
    SpacedTokenRemoved(t);
    ClosedUpTokenKept(t);
    var x := Token(t);
    assert x[TokenLength(t)..] == "";
    RemoveTagDropsToken(x, t);
    assert x[0] == '(' && x[|x| - 1] == ')';
    TrimStartOfTrimmed(x);
    TrimEndOfTrimmed(x);
  }

  /** The pass does not rescan: deleting the inner token of
      `(` + `(tag)` + `tag)` leaves a whole token behind. */
  lemma ClosedUpTokenKept(t: Tag)
    ensures RemoveTag("(" + Token(t) + Word(t) + ")", t) == Token(t)
    ensures HasTag(Token(t), t)
  {
    var tail := Word(t) + ")";
    var s := "(" + (Token(t) + tail);
    ClosedUpRegrouped(t);
    SymbolBlocksMatch(s, t);
    RemoveTagKeepsFirst(s, t);
    assert s[1..] == Token(t) + tail;
    SpacedTokenRemoved(t);
    LeadingTokenDropped(Token(t), tail, t);
    LowerCaseWordUntagged(t);
    RemoveTagWithoutTag(tail, t);
    assert Token(t) == "(" + tail;
  }

  lemma ClosedUpRegrouped(t: Tag)
    ensures "(" + Token(t) + Word(t) + ")" == "(" + (Token(t) + (Word(t) + ")"))
  {
    AppendAssociative("(" + Token(t), Word(t), ")");
    AppendAssociative("(", Token(t), Word(t) + ")");
  }

  /** No token starts where the second character is not a letter. */
  lemma SymbolBlocksMatch(s: string, t: Tag)
    requires 1 < |s| && s[1] < 'A'
    ensures !MatchAt(s, 0, t)
  {
    if TokenLength(t) <= |s| {
      var x := s[0..TokenLength(t)];
      assert x[1] == s[1];
      SymbolNotInWord(x, t, 1);
    }
  }

  /** A whole token at the front is deleted and the rest is scanned. */
  lemma LeadingTokenDropped(x: string, tail: string, t: Tag)
    requires |x| == TokenLength(t) && MatchAt(x, 0, t)
    ensures RemoveTag(x + tail, t) == RemoveTag(tail, t)
  {
    MatchInPrefix(x, tail, 0, t);
    RemoveTagDropsToken(x + tail, t);
    assert (x + tail)[TokenLength(t)..] == tail;
  }

  /** The word followed by a closing bracket holds no token. */
  lemma LowerCaseWordUntagged(t: Tag)
    ensures !HasTag(Word(t) + ")", t)
  {
    WordIsLowerCase(t);
    NoBracketNoTag(Word(t) + ")", t);
  }

  /** Where a token starts, it is deleted and the scan resumes after it. */
  lemma RemoveTagDropsToken(s: string, t: Tag)
    requires MatchAt(s, 0, t)
    ensures RemoveTag(s, t) == RemoveTag(s[TokenLength(t)..], t)
  {
  }

  /** When no token starts among the first `n` characters, the pass copies
      them verbatim. */
  lemma {:induction false} RemoveTagCopiesPrefix(s: string, n: nat, t: Tag)
    requires n <= |s| && forall i :: 0 <= i < n ==> !MatchAt(s, i, t)
    ensures RemoveTag(s, t) == s[..n] + RemoveTag(s[n..], t)
    decreases n
  {
    if n > 0 {
      var tail := s[1..];
      var rest := RemoveTag(s[n..], t);
      assert tail[n - 1..] == s[n..] && s[..n] == [s[0]] + tail[..n - 1];
      calc {
        RemoveTag(s, t);
        { RemoveTagKeepsFirst(s, t); }
        [s[0]] + RemoveTag(tail, t);
        { NoMatchInTail(s, n, t);
          RemoveTagCopiesPrefix(tail, n - 1, t); }
        [s[0]] + (tail[..n - 1] + rest);
        { AppendAssociative([s[0]], tail[..n - 1], rest); }
        ([s[0]] + tail[..n - 1]) + rest;
      }
    } else {
      assert s[..0] == [] && s[0..] == s;
    }
  }

  /** Where no token starts, the first character is copied. */
  lemma RemoveTagKeepsFirst(s: string, t: Tag)
    requires |s| > 0 && !MatchAt(s, 0, t)
    ensures RemoveTag(s, t) == [s[0]] + RemoveTag(s[1..], t)
  {
  }

  lemma NoMatchInTail(s: string, n: nat, t: Tag)
    requires 0 < n <= |s| && forall i :: 0 <= i < n ==> !MatchAt(s, i, t)
    ensures forall i :: 0 <= i < n - 1 ==> !MatchAt(s[1..], i, t)
  {
    forall i | 0 <= i < n - 1 ensures !MatchAt(s[1..], i, t) {
      MatchAtShift(s, i, t);
    }
  }

  lemma TrimWithTrailingSpace(s: string, c: char)
    requires IsSpace(c)
    ensures Trim(s + [c]) == Trim(s)
  {
    var a := TrimStart(s);
    TrimStartShape(s);
    if |a| == 0 {
      assert TrimStart(s + [c]) == [] by {
        forall k | 0 <= k < |s| ensures IsSpace((s + [c])[k]) { }
        TrimStartAllSpace(s + [c]);
      }
    } else {
      TrimStartKeepsSuffix(s, [c]);
      assert TrimStart(s + [c]) == a + [c];
      assert (a + [c])[..|a + [c]| - 1] == a;
    }
  }

  lemma {:induction false} TrimStartAllSpace(s: string)
    requires forall k :: 0 <= k < |s| ==> IsSpace(s[k])
    ensures TrimStart(s) == []
    decreases |s|
  {
    if |s| > 0 {
      TrimStartAllSpace(s[1..]);
    }
  }

  lemma {:induction false} TrimStartKeepsSuffix(s: string, b: string)
    requires |TrimStart(s)| > 0
    ensures TrimStart(s + b) == TrimStart(s) + b
    decreases |s|
  {
    if IsSpace(s[0]) {
      assert (s + b)[1..] == s[1..] + b;
      TrimStartKeepsSuffix(s[1..], b);
    }
  }

  /** The round-bracket token is itself a match, and deleting it from
      " (tag)" leaves the separating space. */
  lemma SpacedTokenRemoved(t: Tag)
    ensures MatchAt(Token(t), 0, t)
    ensures RemoveTag(" " + Token(t), t) == " "
  {
    var x := Token(t);
    assert x[0..TokenLength(t)] == x;
    assert x[1..|x| - 1] == Word(t);
    assert MatchAt(x, 0, t);
    assert x[TokenLength(t)..] == "";
    var b := " " + x;
    assert !MatchAt(b, 0, t) by {
      assert b[0] == ' ';
    }
    assert b[1..] == x;
  }

  /** No token starts inside a tag-free name followed by " (tag)". */
  lemma NoMatchStartsInName(name: string, t: Tag, i: nat)
    requires !HasTag(name, t)
    requires i < |name|
    ensures !MatchAt(name + " " + Token(t), i, t)
  {
    var s := name + (" " + Token(t));
    AppendAssociative(name, " ", Token(t));
    if i + TokenLength(t) <= |name| {
      MatchInPrefix(name, " " + Token(t), i, t);
    } else {
      assert s[|name|] == ' ';
      SpaceBlocksMatch(s, i, t, |name|);
    }
  }

  /** A token lying within `a` is matched in `a + b` exactly when in `a`. */
  lemma MatchInPrefix(a: string, b: string, i: nat, t: Tag)
    requires i + TokenLength(t) <= |a|
    ensures MatchAt(a + b, i, t) <==> MatchAt(a, i, t)
  {
    assert (a + b)[i..i + TokenLength(t)] == a[i..i + TokenLength(t)];
  }

  /** No token spans a space. */
  lemma SpaceBlocksMatch(s: string, i: nat, t: Tag, j: nat)
    requires i <= j < |s| && j < i + TokenLength(t) && s[j] == ' '
    ensures !MatchAt(s, i, t)
  {
    if i + TokenLength(t) <= |s| {
      var x := s[i..i + TokenLength(t)];
      assert x[j - i] == ' ';
      SpaceNotInToken(x, t, j - i);
    }
  }

  /** A token holds no space. */
  lemma SpaceNotInToken(x: string, t: Tag, k: nat)
    requires k < |x| && x[k] == ' '
    ensures !IsToken(x, t)
  {
    if |x| == TokenLength(t) && 0 < k < |x| - 1 {
      SymbolNotInWord(x, t, k);
    }
  }

  /** No character below 'A' matches a letter of the word. */
  lemma SymbolNotInWord(x: string, t: Tag, k: nat)
    requires 0 < k < |x| - 1 && x[k] < 'A'
    ensures !IsToken(x, t)
  {
    if |x| == TokenLength(t) {
      var a := x[1..|x| - 1];
      var w := Word(t);
      assert a[k - 1] == x[k];
      WordIsLowerCase(t);
      assert !LetterMatches(a[k - 1], w[k - 1]);
    }
  }

  /** Every tag word is spelt in lower-case ASCII letters. */
  lemma WordIsLowerCase(t: Tag)
    ensures forall k :: 0 <= k < |Word(t)| ==> 'a' <= Word(t)[k] <= 'z'
  {
  }

  /** Annotating a clean name with a token and stripping that token gives the
      trimmed name back. */
  lemma AnnotatedNameRoundTrip(name: string, t: Tag)
    requires !HasTag(name, t)
    ensures HasTag(name + " " + Token(t), t)
    ensures StripTag(name + " " + Token(t), t) == Trim(name)
  {
    var b := " " + Token(t);
    var s := name + " " + Token(t);
    assert s == name + b by {
      AppendAssociative(name, " ", Token(t));
    }
    assert MatchAt(s, |name| + 1, t) by {
      SpacedTokenRemoved(t);
      assert s[|name| + 1..|name| + 1 + TokenLength(t)] == Token(t);
    }
    assert RemoveTag(s, t) == name + " " by {
      forall i | 0 <= i < |name| ensures !MatchAt(name + b, i, t) {
        NoMatchStartsInName(name, t, i);
      }
      RemoveTagCopiesPrefix(s, |name|, t);
      assert s[..|name|] == name && s[|name|..] == b;
      SpacedTokenRemoved(t);
    }
    TrimWithTrailingSpace(name, ' ');
  }

  /** A name with no bracket holds no tag. */
  lemma NoBracketNoTag(s: string, t: Tag)
    requires forall k :: 0 <= k < |s| ==> s[k] != '(' && s[k] != '['
    ensures !HasTag(s, t)
  {
    forall i | 0 <= i < |s| ensures !MatchAt(s, i, t) {
      if i + TokenLength(t) <= |s| {
        assert s[i..i + TokenLength(t)][0] == s[i];
      }
    }
  }

  /** A name with no brackets and no surrounding whitespace, followed by a
      space and a tag token, is tagged and cleans back to itself. */
  lemma TaggedCleanName(name: string, t: Tag)
    requires forall k :: 0 <= k < |name| ==> name[k] != '(' && name[k] != '['
    requires Trim(name) == name
    ensures HasTag(name + " " + Token(t), t)
    ensures StripTag(name + " " + Token(t), t) == name
  {
    NoBracketNoTag(name, t);
    AnnotatedNameRoundTrip(name, t);
  }
}
