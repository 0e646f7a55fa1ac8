/**
 * The regular-expression engine of Python's `re` module, left abstract.
 *
 * A pattern is kept as the source writes it (its text and whether it is
 * searched with re.IGNORECASE and with re.DOTALL), so every table of patterns in the model is the
 * repository's own. What the engine does with a pattern is a parameter of the
 * model: `Engine(p, t)` is the list `re.findall(p, t)` returns, one string per
 * non-overlapping match from left to right (the captured group when the
 * pattern has one). `re.search` finds the leftmost match, which is the first
 * element of that list.
 */
module Regex {

  datatype Pattern = Pattern(source: string, ignoreCase: bool, dotAll: bool := false)

  type Engine = (Pattern, string) -> seq<string>

  /** `re.search(p, t)` is not None. */
  predicate Search(engine: Engine, p: Pattern, t: string) {
    |engine(p, t)| > 0
  }

  /** `len(re.findall(p, t))`. */
  function Count(engine: Engine, p: Pattern, t: string): nat {
    |engine(p, t)|
  }

  /** `re.search(p, t).group(1)`. */
  function FirstGroup(engine: Engine, p: Pattern, t: string): string
    requires Search(engine, p, t)
  {
    engine(p, t)[0]
  }

  /** Some pattern of the table matches somewhere in `t`. */
  predicate SearchAny(engine: Engine, ps: seq<Pattern>, t: string) {
    exists i :: 0 <= i < |ps| && Search(engine, ps[i], t)
  }

  /** Concatenation of `re.findall` over a table of patterns, in table order. */
  function FindAllEach(engine: Engine, ps: seq<Pattern>, t: string): seq<string> {
    if ps == [] then [] else engine(ps[0], t) + FindAllEach(engine, ps[1..], t)
  }

  /** Sum of the match counts of a table of patterns. */
  function CountEach(engine: Engine, ps: seq<Pattern>, t: string): nat {
    if ps == [] then 0 else Count(engine, ps[0], t) + CountEach(engine, ps[1..], t)
  }

  /** The position of the first pattern of the table that matches, or `|ps|` when none does. */
  function FirstFound(engine: Engine, ps: seq<Pattern>, text: string): (i: nat)
    ensures i <= |ps|
    ensures i < |ps| ==> Search(engine, ps[i], text)
    ensures forall j :: 0 <= j < i ==> !Search(engine, ps[j], text)
  {
    if ps == [] then 0
    else if Search(engine, ps[0], text) then 0
    else 1 + FirstFound(engine, ps[1..], text)
  }

  /** A pattern that matches while every earlier one does not is the one `FirstFound` picks. */
  lemma FirstFoundUnique(engine: Engine, ps: seq<Pattern>, text: string)
    ensures forall j :: 0 <= j < |ps| && Search(engine, ps[j], text) &&
                        (forall k :: 0 <= k < j ==> !Search(engine, ps[k], text)) ==>
                        FirstFound(engine, ps, text) == j
  {
  }

  /** Searching a table in two parts finds the matches of the first part, then those of the second. */
  lemma {:induction false} FindAllEachAppend(engine: Engine, a: seq<Pattern>, b: seq<Pattern>, t: string)
    ensures FindAllEach(engine, a + b, t) == FindAllEach(engine, a, t) + FindAllEach(engine, b, t)
  {
    if a == [] {
      assert a + b == b;
    } else {
      assert (a + b)[1..] == a[1..] + b;
      FindAllEachAppend(engine, a[1..], b, t);
    }
  }
}
