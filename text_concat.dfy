/**
 * Concatenating the texts of a list of parts, as a template literal does with
 * its fixed stretches and interpolated values, and the facts about it that do
 * not depend on what the parts are.
 */
module TextConcat {

  /** The texts of `parts`, in order, joined with nothing between them. */
  function ConcatMap<T>(text: T -> string, parts: seq<T>): string
  {
    if parts == [] then [] else text(parts[0]) + ConcatMap(text, parts[1..])
  }

  /** `s` begins with `prefix`. */
  predicate StartsWith(s: string, prefix: string)
  {
    |s| >= |prefix| && s == prefix + s[|prefix|..]
  }

  /** `s` finishes with `suffix`. */
  predicate EndsWith(s: string, suffix: string)
  {
    |s| >= |suffix| && s == s[..|s| - |suffix|] + suffix
  }

  /** A concatenation starts with its first part and ends with its last. */
  lemma ConcatFrames(head: string, body: string, tail: string)
    ensures StartsWith(head + body + tail, head)
    ensures EndsWith(head + body + tail, tail)
  {
    var text := head + body + tail;
    assert text[|head|..] == body + tail;
    assert text[..|text| - |tail|] == head + body;
  }

  /** `part` occurs somewhere in `s`. */
  ghost predicate Contains(s: string, part: string)
  {
    exists before: string, after: string :: s == before + part + after
  }

  /** Joining distributes over concatenation of part lists. */
  lemma {:induction false} ConcatMapAppend<T>(text: T -> string, a: seq<T>, b: seq<T>)
    ensures ConcatMap(text, a + b) == ConcatMap(text, a) + ConcatMap(text, b)
  {
    if a != [] {
      assert (a + b)[0] == a[0] && (a + b)[1..] == a[1..] + b;
      ConcatMapAppend(text, a[1..], b);
    } else {
      assert a + b == b;
    }
  }

  /** The joined text splits around any one of the parts. */
  lemma {:induction false} ConcatMapAround<T>(text: T -> string, parts: seq<T>, k: nat)
    requires k < |parts|
    ensures ConcatMap(text, parts)
      == ConcatMap(text, parts[..k]) + text(parts[k]) + ConcatMap(text, parts[k + 1..])
  {
    assert ConcatMap(text, [parts[k]]) == text(parts[k]) + ConcatMap(text, []);
    assert parts == parts[..k] + [parts[k]] + parts[k + 1..];
    ConcatMapAppend(text, parts[..k] + [parts[k]], parts[k + 1..]);
    ConcatMapAppend(text, parts[..k], [parts[k]]);
  }

  /** Joining from position `k`: part `k`, then the rest. */
  lemma ConcatMapStep<T>(text: T -> string, parts: seq<T>, k: nat)
    requires k < |parts|
    ensures ConcatMap(text, parts[k..]) == text(parts[k]) + ConcatMap(text, parts[k + 1..])
  {
    assert parts[k..][1..] == parts[k + 1..];
  }

  /** A right-nested concatenation starts with its first four parts. */
  lemma PrefixOfNested(r0: string, r1: string, r2: string, r3: string, rest: string)
    ensures r0 + r1 + r2 + r3 <= r0 + (r1 + (r2 + (r3 + rest)))
  {
    assert r0 + (r1 + (r2 + (r3 + rest))) == (r0 + r1 + r2 + r3) + rest;
  }

  /** The texts of the first four parts, joined, start the joined text. */
  lemma ConcatMapFourPrefix<T>(text: T -> string, parts: seq<T>)
    requires |parts| >= 4
    ensures text(parts[0]) + text(parts[1]) + text(parts[2]) + text(parts[3]) <= ConcatMap(text, parts)
  {
    ConcatMapStep(text, parts, 0);
    ConcatMapStep(text, parts, 1);
    ConcatMapStep(text, parts, 2);
    ConcatMapStep(text, parts, 3);
    assert parts[0..] == parts;
    PrefixOfNested(text(parts[0]), text(parts[1]), text(parts[2]), text(parts[3]), ConcatMap(text, parts[4..]));
  }

  /** Concatenation regrouped into the three stretches `ConcatMapFramed` needs. */
  lemma Regroup(a: string, b: string, c: string, d: string, e: string, f: string, g: string)
    ensures a + (b + c) + d + (e + f + g) == (a + b) + (c + d + e) + (f + g)
  {
  }

  /**
   * If the part before position `k` ends in `opening` and the part after it
   * starts with `closing`, the joined text contains part `k` framed by the two.
   */
  lemma {:induction false} ConcatMapFramed<T>(text: T -> string, parts: seq<T>, k: nat, opening: string, closing: string)
    requires 0 < k < |parts| - 1
    requires EndsWith(text(parts[k - 1]), opening)
    requires StartsWith(text(parts[k + 1]), closing)
    ensures Contains(ConcatMap(text, parts), opening + text(parts[k]) + closing)
  {
    ConcatMapAround(text, parts, k);
    ConcatMapAround(text, parts[..k], k - 1);
    ConcatMapAround(text, parts[k + 1..], 0);
    assert parts[..k][..k - 1] == parts[..k - 1] && parts[..k][k..] == [];
    assert parts[k + 1..][..0] == [] && parts[k + 1..][1..] == parts[k + 2..];
    var before, after := text(parts[k - 1]), text(parts[k + 1]);
    assert ConcatMap(text, parts[..k]) == ConcatMap(text, parts[..k - 1]) + before;
    assert ConcatMap(text, parts[k + 1..]) == after + ConcatMap(text, parts[k + 2..]);
    Regroup(ConcatMap(text, parts[..k - 1]), before[..|before| - |opening|], opening, text(parts[k]),
      closing, after[|closing|..], ConcatMap(text, parts[k + 2..]));
  }
}
