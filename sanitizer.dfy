/**
 * The sanitiser shared, character for character, by the input and the output
 * guardrails: drop every `<`, `>`, `"` and `'`, replace each run of whitespace
 * by one blank, and strip the ends.
 */
module Sanitizer {
  import opened Text
  import opened Collections

  predicate IsUnsafe(c: char) {
    c == '<' || c == '>' || c == '"' || c == '\''
  }

  predicate Safe(c: char) {
    !IsUnsafe(c)
  }

  /** A character that is not whitespace. */
  predicate Visible(c: char) {
    !IsSpace(c)
  }

  predicate VisibleSafe(c: char) {
    Visible(c) && Safe(c)
  }

  /** The text has no character of the class `[<>"']`. */
  predicate NoUnsafe(s: string) {
    forall i :: 0 <= i < |s| ==> !IsUnsafe(s[i])
  }

  /** No two adjacent characters are both whitespace. */
  predicate NoDoubleSpace(s: string) {
    forall i :: 0 <= i < |s| - 1 ==> !(IsSpace(s[i]) && IsSpace(s[i + 1]))
  }

  /** Every whitespace character is the blank. */
  predicate OnlyBlanks(s: string) {
    forall i :: 0 <= i < |s| ==> IsSpace(s[i]) ==> s[i] == ' '
  }

  /** What the sanitiser promises of its output. */
  predicate Clean(s: string) {
    NoUnsafe(s) && NoDoubleSpace(s) && OnlyBlanks(s) &&
    (s == [] || (!IsSpace(s[0]) && !IsSpace(s[|s| - 1])))
  }

  /** `re.sub(r'[<>"\']', '', s)`. */
  function RemoveUnsafe(s: string): (r: string)
    ensures NoUnsafe(r)
    ensures |r| <= |s|
    ensures forall i :: 0 <= i < |r| ==> r[i] in s
    ensures NoUnsafe(s) ==> r == s
    ensures r == Filter(s, Safe)
  {
    if s == [] then []
    else if IsUnsafe(s[0]) then RemoveUnsafe(s[1..])
    else [s[0]] + RemoveUnsafe(s[1..])
  }

  /** `re.sub(r'\s+', ' ', s)`: each maximal run of whitespace becomes one blank. */
  function Collapse(s: string): (r: string)
    decreases |s|
    ensures |r| <= |s|
    ensures s != [] && !IsSpace(s[0]) ==> r != [] && r[0] == s[0]
    ensures s != [] && IsSpace(s[0]) ==> r != [] && r[0] == ' '
  {
    if s == [] then []
    else if IsSpace(s[0]) then [' '] + Collapse(TrimLeft(s[1..]))
    else [s[0]] + Collapse(s[1..])
  }

  /** The blank the collapse leaves in front of the words when the text starts with whitespace. */
  function LeadBlank(s: string): string {
    if s != [] && IsSpace(s[0]) then " " else ""
  }

  /** The blank the collapse leaves behind the last word when whitespace follows it. */
  function TrailBlank(s: string): string {
    if s != [] && Words(s) != [] && IsSpace(s[|s| - 1]) then " " else ""
  }

  /**
   * The collapse is `" ".join(s.split())` with one blank kept at either end
   * where the text had whitespace there.
   */
  lemma {:induction false} CollapseWords(s: string)
    decreases |s|
    ensures Collapse(s) == LeadBlank(s) + Join(" ", Words(s)) + TrailBlank(s)
  {
    if s != [] && IsSpace(s[0]) {
      CollapseWords(TrimLeft(s[1..]));
      CollapseWordsSpace(s, TrimLeft(s[1..]));
    } else if s != [] {
      CollapseWords(s[1..]);
      CollapseWordsVisible(s, s[1..]);
    }
  }

  /** The step of `CollapseWords` for a text that starts with whitespace. */
  lemma CollapseWordsSpace(s: string, t: string)
    requires s != [] && IsSpace(s[0]) && t == TrimLeft(s[1..])
    requires Collapse(t) == LeadBlank(t) + Join(" ", Words(t)) + TrailBlank(t)
    ensures Collapse(s) == LeadBlank(s) + Join(" ", Words(s)) + TrailBlank(s)
  {
    SpaceStep(s, t);
    var j := Join(" ", Words(t));
    var tb := TrailBlank(t);
    DropEmpty(LeadBlank(t), j);
    AppendAssoc(" ", j, tb);
  }

  /** How each part of the `CollapseWords` equation changes over leading whitespace. */
  lemma SpaceStep(s: string, t: string)
    requires s != [] && IsSpace(s[0]) && t == TrimLeft(s[1..])
    ensures Collapse(s) == " " + Collapse(t)
    ensures LeadBlank(s) == " " && LeadBlank(t) == ""
    ensures Words(s) == Words(t)
    ensures TrailBlank(s) == TrailBlank(t)
  {
    WordsTrimLeft(s[1..]);
    if t != [] {
      TrimLeftLast(s, t);
    }
    TrailBlankSame(s, t);
  }

  /** Two texts that both have words, or both have none, and end alike have the same trailing blank. */
  lemma TrailBlankSame(s: string, t: string)
    requires (Words(s) == []) == (Words(t) == [])
    requires s != [] && (t == [] || s[|s| - 1] == t[|t| - 1])
    ensures TrailBlank(s) == TrailBlank(t)
  {
  }

  /** `lstrip` after the first character keeps the last character of a text that is not all whitespace. */
  lemma TrimLeftLast(s: string, t: string)
    requires s != [] && t == TrimLeft(s[1..]) && t != []
    ensures t[|t| - 1] == s[|s| - 1]
  {
    var u := s[1..];
    assert t == u[|u| - |t|..];
    assert u[|u| - 1] == s[|s| - 1];
  }

  /** The step of `CollapseWords` for a text that starts with a visible character. */
  lemma CollapseWordsVisible(s: string, t: string)
    requires s != [] && !IsSpace(s[0]) && t == s[1..]
    requires Collapse(t) == LeadBlank(t) + Join(" ", Words(t)) + TrailBlank(t)
    ensures Collapse(s) == LeadBlank(s) + Join(" ", Words(s)) + TrailBlank(s)
  {
    if t == [] {
      LastWord(s);
    } else if !IsSpace(t[0]) {
      WordGrows(s, t);
    } else if Words(t) == [] {
      LastWordBlank(s, t);
    } else {
      WordEnds(s, t);
    }
  }

  /** `CollapseWords` for a one-character visible text. */
  lemma LastWord(s: string)
    requires |s| == 1 && !IsSpace(s[0])
    ensures Collapse(s) == LeadBlank(s) + Join(" ", Words(s)) + TrailBlank(s)
  {
    CollapseFront(s);
    SingleWord(s);
    Assemble(Collapse(s), [s[0]], Collapse(s[1..]), "", "", LeadBlank(s), Join(" ", Words(s)), TrailBlank(s));
  }

  /** The step of `CollapseWords` when the second character is visible too: the first word grows. */
  lemma WordGrows(s: string, t: string)
    requires s != [] && !IsSpace(s[0]) && t == s[1..] && t != [] && !IsSpace(t[0])
    requires Collapse(t) == LeadBlank(t) + Join(" ", Words(t)) + TrailBlank(t)
    ensures Collapse(s) == LeadBlank(s) + Join(" ", Words(s)) + TrailBlank(s)
  {
    CollapseFront(s);
    JoinWordsGrow(s);
    TrailOfTail(s);
    Assemble(Collapse(s), [s[0]], Collapse(t), LeadBlank(t) + Join(" ", Words(t)), TrailBlank(t),
      LeadBlank(s), Join(" ", Words(s)), TrailBlank(s));
  }

  /** The step of `CollapseWords` when only whitespace follows the first character. */
  lemma LastWordBlank(s: string, t: string)
    requires s != [] && !IsSpace(s[0]) && t == s[1..] && t != [] && IsSpace(t[0]) && Words(t) == []
    requires Collapse(t) == LeadBlank(t) + Join(" ", Words(t)) + TrailBlank(t)
    ensures Collapse(s) == LeadBlank(s) + Join(" ", Words(s)) + TrailBlank(s)
  {
    CollapseFront(s);
    SingleWordBlank(s);
    BlankOnly(t);
    Assemble(Collapse(s), [s[0]], Collapse(t), "", " ", LeadBlank(s), Join(" ", Words(s)), TrailBlank(s));
  }

  /** The step of `CollapseWords` when whitespace and then another word follow the first character. */
  lemma WordEnds(s: string, t: string)
    requires s != [] && !IsSpace(s[0]) && t == s[1..] && t != [] && IsSpace(t[0]) && Words(t) != []
    requires Collapse(t) == LeadBlank(t) + Join(" ", Words(t)) + TrailBlank(t)
    ensures Collapse(s) == LeadBlank(s) + Join(" ", Words(s)) + TrailBlank(s)
  {
    CollapseFront(s);
    JoinWordsFront(s);
    TrailOfTail(s);
    Assemble(Collapse(s), [s[0]], Collapse(t), LeadBlank(t) + Join(" ", Words(t)), TrailBlank(t),
      LeadBlank(s), Join(" ", Words(s)), TrailBlank(s));
  }

  /** Puts the parts of a `CollapseWords` step together. */
  lemma Assemble(x: string, c: string, ct: string, m: string, tb: string, lb: string, w: string, trb: string)
    requires x == c + ct && ct == m + tb
    requires lb == [] && w == c + m && trb == tb
    ensures x == lb + w + trb
  {
  }

  /** The collapse copies a visible first character. */
  lemma CollapseFront(s: string)
    requires s != [] && !IsSpace(s[0])
    ensures Collapse(s) == [s[0]] + Collapse(s[1..])
    ensures LeadBlank(s) == []
  {
  }

  /** A single visible character is one word. */
  lemma SingleWord(s: string)
    requires |s| == 1 && !IsSpace(s[0])
    ensures Join(" ", Words(s)) == [s[0]]
    ensures TrailBlank(s) == []
    ensures Collapse(s[1..]) == []
  {
    assert Words(s[1..]) == [];
    assert Words(s) == [[s[0]]];
  }

  /** A visible character followed by whitespace only is one word, with one blank behind it. */
  lemma SingleWordBlank(s: string)
    requires |s| > 1 && !IsSpace(s[0]) && IsSpace(s[1]) && Words(s[1..]) == []
    ensures Join(" ", Words(s)) == [s[0]]
    ensures TrailBlank(s) == " "
  {
    var t := s[1..];
    assert Words(s) == [[s[0]]] + Words(t);
    assert [[s[0]]] + [] == [[s[0]]];
    assert AllSpace(t);
    assert IsSpace(t[|t| - 1]);
  }

  /** A whitespace-only text, when not empty, collapses to one blank. */
  lemma BlankOnly(t: string)
    requires t != [] && IsSpace(t[0]) && Words(t) == []
    ensures Collapse(t) == " "
  {
    assert AllSpace(t);
    assert TrimLeft(t[1..]) == [] by {
      assert AllSpace(t[1..]);
      TrimLeftPadded(t[1..], []);
      assert t[1..] + [] == t[1..];
    }
  }

  /** A visible second character extends the first word. */
  lemma JoinWordsGrow(s: string)
    requires |s| > 1 && !IsSpace(s[0]) && !IsSpace(s[1])
    ensures Join(" ", Words(s)) == [s[0]] + (LeadBlank(s[1..]) + Join(" ", Words(s[1..])))
  {
    var ws := Words(s[1..]);
    assert Words(s) == [[s[0]] + ws[0]] + ws[1..];
    JoinGrowFirst(" ", s[0], ws);
    assert LeadBlank(s[1..]) == [];
    DropEmpty(LeadBlank(s[1..]), Join(" ", ws));
  }

  /** Whitespace after the first character ends the first word. */
  lemma JoinWordsFront(s: string)
    requires |s| > 1 && !IsSpace(s[0]) && IsSpace(s[1]) && Words(s[1..]) != []
    ensures Join(" ", Words(s)) == [s[0]] + (LeadBlank(s[1..]) + Join(" ", Words(s[1..])))
  {
    var ws := Words(s[1..]);
    assert Words(s) == [[s[0]]] + ws;
    JoinFront(" ", [s[0]], ws);
    assert LeadBlank(s[1..]) == " ";
    AppendAssoc([s[0]], " ", Join(" ", ws));
  }

  /** After a visible first character, the rest has a word iff the whole has, and ends alike. */
  lemma TrailOfTail(s: string)
    requires |s| > 1 && !IsSpace(s[0]) && Words(s[1..]) != []
    ensures TrailBlank(s) == TrailBlank(s[1..])
  {
    assert s[1..][|s| - 2] == s[|s| - 1];
    TrailBlankSame(s, s[1..]);
  }

  /** An empty part leaves a concatenation unchanged. */
  lemma DropEmpty(e: string, x: string)
    requires e == []
    ensures e + x == x
  {
  }

  /** Concatenation is associative. */
  lemma AppendAssoc(a: string, b: string, c: string)
    ensures a + (b + c) == a + b + c
  {
  }

  /** The collapsed text has single blanks only. */
  lemma {:induction false} CollapseShape(s: string)
    decreases |s|
    ensures NoDoubleSpace(Collapse(s)) && OnlyBlanks(Collapse(s))
  {
    if s != [] {
      if IsSpace(s[0]) {
        var t := TrimLeft(s[1..]);
        CollapseShape(t);
        assert Collapse(s) == [' '] + Collapse(t);
      } else {
        CollapseShape(s[1..]);
        assert Collapse(s) == [s[0]] + Collapse(s[1..]);
      }
    }
  }

  /** Every character of the collapsed text other than the blank comes from the input. */
  lemma {:induction false} CollapseChars(s: string)
    ensures forall i :: 0 <= i < |Collapse(s)| ==> Collapse(s)[i] == ' ' || Collapse(s)[i] in s
    ensures NoUnsafe(s) ==> NoUnsafe(Collapse(s))
  {
    var r := Collapse(s);
    CollapseShape(s);
    CollapseVisible(s);
    forall i | 0 <= i < |r| ensures r[i] == ' ' || r[i] in s {
      if Visible(r[i]) {
        assert r[i] in Filter(s, Visible);
      }
    }
  }

  /** Dropping a whitespace-only prefix keeps the same visible characters. */
  lemma TrimLeftVisible(s: string)
    ensures Filter(TrimLeft(s), Visible) == Filter(s, Visible)
  {
    var t := TrimLeft(s);
    var a := s[..|s| - |t|];
    assert s == a + t;
    assert forall i :: 0 <= i < |a| ==> !Visible(a[i]) by {
      forall i | 0 <= i < |a| ensures !Visible(a[i]) {
        assert a[i] == s[i];
      }
    }
    FilterAppend(a, t, Visible);
    FilterNone(a, Visible);
  }

  /** The collapse keeps every non-whitespace character, in order. */
  lemma {:induction false} CollapseVisible(s: string)
    decreases |s|
    ensures Filter(Collapse(s), Visible) == Filter(s, Visible)
  {
    if s != [] {
      if IsSpace(s[0]) {
        var t := TrimLeft(s[1..]);
        CollapseVisible(t);
        TrimLeftVisible(s[1..]);
        FilterAppend([' '], Collapse(t), Visible);
        assert Filter([' '], Visible) == [];
      } else {
        CollapseVisible(s[1..]);
        FilterAppend([s[0]], Collapse(s[1..]), Visible);
        assert Filter([s[0]], Visible) == [s[0]];
      }
    }
  }

  /** Dropping a whitespace-only suffix keeps the same visible characters. */
  lemma TrimRightVisible(s: string)
    ensures Filter(TrimRight(s), Visible) == Filter(s, Visible)
  {
    var t := TrimRight(s);
    var b := s[|t|..];
    assert s == t + b;
    assert forall i :: 0 <= i < |b| ==> !Visible(b[i]) by {
      forall i | 0 <= i < |b| ensures !Visible(b[i]) {
        assert b[i] == s[|t| + i];
      }
    }
    FilterAppend(t, b, Visible);
    FilterNone(b, Visible);
  }

  /** Stripping drops whitespace only. */
  lemma StripVisible(t: string)
    ensures Filter(Strip(t), Visible) == Filter(t, Visible)
  {
    assert Strip(t) == TrimRight(TrimLeft(t));
    TrimRightVisible(TrimLeft(t));
    TrimLeftVisible(t);
  }

  /** A clean text passes through every step of the sanitiser unchanged. */
  lemma CleanFixed(s: string)
    ensures Clean(s) ==> Strip(Collapse(RemoveUnsafe(s))) == s
  {
    if Clean(s) {
      assert RemoveUnsafe(s) == s;
      CollapseKeeps(s);
      assert TrimLeft(s) == s;
      assert TrimRight(s) == s;
      assert Strip(s) == TrimRight(TrimLeft(s));
    }
  }

  /** `_sanitize_input` / `_sanitize_output`. */
  function Sanitize(s: string): (r: string)
    ensures Clean(r)
    ensures |r| <= |s|
    ensures Filter(r, Visible) == Filter(s, VisibleSafe)
    ensures Clean(s) ==> r == s
    ensures r == Join(" ", Words(RemoveUnsafe(s)))
  {
    SanitizeWords(s);
    SanitizeClean(s);
    SanitizeVisible(s);
    CleanFixed(s);
    Strip(Collapse(RemoveUnsafe(s)))
  }

  /** The three steps together are `" ".join(s.split())` after dropping the unsafe characters. */
  lemma SanitizeWords(s: string)
    ensures Strip(Collapse(RemoveUnsafe(s))) == Join(" ", Words(RemoveUnsafe(s)))
  {
    var u := RemoveUnsafe(s);
    CollapseWords(u);
    JoinWordsEnds(Words(u));
    BlanksAreSpace(u);
    StripPadded(LeadBlank(u), Join(" ", Words(u)), TrailBlank(u));
  }

  /** The blanks the collapse keeps at the ends are whitespace. */
  lemma BlanksAreSpace(u: string)
    ensures AllSpace(LeadBlank(u)) && AllSpace(TrailBlank(u))
  {
  }

  /** The three steps together produce a clean text. */
  lemma SanitizeClean(s: string)
    ensures Clean(Strip(Collapse(RemoveUnsafe(s))))
  {
    var u := RemoveUnsafe(s);
    var t := Collapse(u);
    CollapseShape(u);
    CollapseChars(u);
    var r := Strip(t);
    var k :| 0 <= k <= |t| && SliceAt(t, r, k);
    SliceKeeps(t, r, k);
  }

  /** The three steps together keep exactly the safe non-whitespace characters, in order. */
  lemma SanitizeVisible(s: string)
    ensures Filter(Strip(Collapse(RemoveUnsafe(s))), Visible) == Filter(s, VisibleSafe)
  {
    var u := RemoveUnsafe(s);
    CollapseVisible(u);
    StripVisible(Collapse(u));
    FilterFilter(s, Safe, Visible, VisibleSafe);
  }

  /** The three character-level properties carry over to a slice. */
  lemma SliceKeeps(t: string, r: string, k: int)
    requires NoUnsafe(t) && NoDoubleSpace(t) && OnlyBlanks(t)
    requires SliceAt(t, r, k)
    ensures NoUnsafe(r) && NoDoubleSpace(r) && OnlyBlanks(r)
  {
    assert forall i :: 0 <= i < |r| ==> r[i] == t[k + i];
  }

  /** A text without double or non-blank whitespace is left alone by the collapse. */
  lemma {:induction false} CollapseKeeps(s: string)
    requires NoDoubleSpace(s) && OnlyBlanks(s)
    ensures Collapse(s) == s
  {
    if s != [] {
      assert NoDoubleSpace(s[1..]) && OnlyBlanks(s[1..]);
      CollapseKeeps(s[1..]);
      if IsSpace(s[0]) {
        assert s[1..] == [] || !IsSpace(s[1]);
        assert TrimLeft(s[1..]) == s[1..];
      }
      assert s == [s[0]] + s[1..];
    }
  }

  /** Sanitising twice is sanitising once. */
  lemma SanitizeIdempotent(s: string)
    ensures Sanitize(Sanitize(s)) == Sanitize(s)
  {
    var t := Sanitize(s);
    assert RemoveUnsafe(t) == t;
    CollapseKeeps(t);
    assert TrimLeft(t) == t;
    assert TrimRight(t) == t;
  }
}
