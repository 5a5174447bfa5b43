/**
 The part of PHP's array semantics that the user directory client relies on
 when it builds request bodies: an ordered array with string keys, the `+`
 union operator (the left operand's keys win) and `implode` with a one-character
 glue. `Explode` is a right inverse of `Implode` for every string, and a left
 inverse only for non-empty lists of glue-free pieces: it is used to state
 when the comma-joined wire string still carries every piece.
 */
module PhpArray {

  datatype Option<T> = None | Some(value: T)

  /** A value that can be placed in a request body. */
  datatype Value =
    | VStr(s: string)
    | VInt(i: int)
    | VBool(b: bool)
    | VNull
    | VList(items: seq<Value>)

  type Entry = (string, Value)

  /** The keys of an array, in insertion order. */
  function Keys(b: seq<Entry>): (ks: seq<string>)
    ensures |ks| == |b|
    ensures forall i :: 0 <= i < |b| ==> ks[i] == b[i].0
  {
    seq(|b|, i requires 0 <= i < |b| => b[i].0)
  }

  /** A PHP array holds each key at most once. */
  predicate DistinctKeys(b: seq<Entry>) {
    forall i, j :: 0 <= i < j < |b| ==> b[i].0 != b[j].0
  }

  /** An ordered PHP array with string keys. */
  type Assoc = b: seq<Entry> | DistinctKeys(b)

  /** `array_key_exists($k, $b) ? $b[$k] : …`, as an option; a null value is found. */
  function Lookup(b: seq<Entry>, k: string): (r: Option<Value>)
    ensures r.Some? <==> k in Keys(b)
    ensures r.Some? ==> (k, r.value) in b
  {
    if b == [] then None
    else if b[0].0 == k then Some(b[0].1)
    else Lookup(b[1..], k)
  }

  /** The entries of `b` whose key is not in `drop`, in their original order. */
  function Omit(b: seq<Entry>, drop: seq<string>): (r: seq<Entry>)
    ensures forall e :: e in r <==> e in b && e.0 !in drop
    ensures |r| <= |b|
  {
    if b == [] then []
    else if b[0].0 in drop then Omit(b[1..], drop)
    else [b[0]] + Omit(b[1..], drop)
  }

  /**
   PHP's `$a + $b`: the result starts as `$a`; every entry of `$b` is then
   appended in order unless its key is already present.
   */
  function Union(a: Assoc, b: Assoc): (r: Assoc)
    ensures |a| <= |r| && r[..|a|] == a
    ensures forall k :: k in Keys(r) <==> k in Keys(a) || k in Keys(b)
    decreases |b|
  {
    if b == [] then a
    else
      assert Keys(b) == [b[0].0] + Keys(b[1..]);
      if b[0].0 in Keys(a) then Union(a, b[1..])
      else
        assert Keys(a + [b[0]]) == Keys(a) + [b[0].0];
        Union(a + [b[0]], b[1..])
  }

  /**
   PHP's `implode(sep, pieces)` for a one-character glue. A non-empty list of
   glue-free pieces can be read back by exploding the result; other lists can
   collide (`[]`, `[""]`, and `["a,b"]` against `["a", "b"]`).
   */
  function Implode(sep: char, pieces: seq<string>): (r: string)
    ensures |pieces| >= 1 && (forall i :: 0 <= i < |pieces| ==> sep !in pieces[i]) ==>
              Explode(sep, r) == pieces
  {
    if |pieces| == 0 then ""
    else if |pieces| == 1 then
      if sep !in pieces[0] then ExplodePiece(sep, pieces[0]); pieces[0]
      else pieces[0]
    else
      var rest := Implode(sep, pieces[1..]);
      if sep !in pieces[0] then ExplodeCons(sep, pieces[0], rest); pieces[0] + [sep] + rest
      else pieces[0] + [sep] + rest
  }

  /** PHP's `explode(sep, s)`: the pieces of `s` between occurrences of `sep`. */
  function Explode(sep: char, s: string): (r: seq<string>)
    ensures |r| >= 1
    ensures forall i :: 0 <= i < |r| ==> sep !in r[i]
  {
    if s == [] then [""]
    else
      var rest := Explode(sep, s[1..]);
      if s[0] == sep then [""] + rest
      else [[s[0]] + rest[0]] + rest[1..]
  }

  // ---------------------------------------------------------------------------
  // Lookup

  /** Lookup in a concatenation finds the left part's entry first. */
  lemma {:induction false} LookupAppend(a: seq<Entry>, c: seq<Entry>, k: string)
    ensures Lookup(a + c, k) == if k in Keys(a) then Lookup(a, k) else Lookup(c, k)
  {
    if a != [] {
      assert (a + c)[1..] == a[1..] + c;
      if a[0].0 != k {
        LookupAppend(a[1..], c, k);
        assert k in Keys(a) <==> k in Keys(a[1..]) by {
          assert Keys(a) == [a[0].0] + Keys(a[1..]);
        }
      }
    } else {
      assert a + c == c;
    }
  }

  /** Dropping other keys does not change what lookup finds. */
  lemma {:induction false} LookupOmit(b: seq<Entry>, drop: seq<string>, k: string)
    requires k !in drop
    ensures Lookup(Omit(b, drop), k) == Lookup(b, k)
  {
    if b != [] {
      LookupOmit(b[1..], drop, k);
    }
  }

  /** Adding a key that `b` does not hold to the dropped keys changes nothing. */
  lemma {:induction false} OmitAbsent(b: seq<Entry>, drop: seq<string>, k: string)
    requires k !in Keys(b)
    ensures Omit(b, drop + [k]) == Omit(b, drop)
  {
    if b != [] {
      assert Keys(b) == [b[0].0] + Keys(b[1..]);
      OmitAbsent(b[1..], drop, k);
    }
  }

  // ---------------------------------------------------------------------------
  // Union

  /**
   The union is the left operand followed by the right operand's entries whose
   keys the left operand does not hold, in their original order.
   */
  lemma {:induction false} UnionIsOmit(a: Assoc, b: Assoc)
    ensures Union(a, b) == a + Omit(b, Keys(a))
    decreases |b|
  {
    if b == [] {
    } else if b[0].0 in Keys(a) {
      UnionIsOmit(a, b[1..]);
    } else {
      var a' := a + [b[0]];
      UnionIsOmit(a', b[1..]);
      assert Keys(a') == Keys(a) + [b[0].0];
      assert b[0].0 !in Keys(b[1..]) by {
        forall i | 0 <= i < |b[1..]| ensures Keys(b[1..])[i] != b[0].0 {
          assert b[1..][i] == b[i + 1];
        }
      }
      OmitAbsent(b[1..], Keys(a), b[0].0);
    }
  }

  /** The left operand's keys win; other keys come from the right operand. */
  lemma UnionLeftWins(a: Assoc, b: Assoc, k: string)
    ensures Lookup(Union(a, b), k) == if k in Keys(a) then Lookup(a, k) else Lookup(b, k)
  {
    UnionIsOmit(a, b);
    LookupAppend(a, Omit(b, Keys(a)), k);
    if k !in Keys(a) {
      LookupOmit(b, Keys(a), k);
    }
  }

  // ---------------------------------------------------------------------------
  // Implode and Explode

  /** A piece without the glue explodes to itself. */
  lemma {:induction false} ExplodePiece(sep: char, x: string)
    requires sep !in x
    ensures Explode(sep, x) == [x]
  {
    if x != [] {
      ExplodePiece(sep, x[1..]);
      assert [x[0]] + x[1..] == x;
    }
  }

  /** Exploding splits off a leading glue-free piece at the first glue. */
  lemma {:induction false} ExplodeCons(sep: char, x: string, t: string)
    requires sep !in x
    ensures Explode(sep, x + [sep] + t) == [x] + Explode(sep, t)
  {
    if x == [] {
      assert (x + [sep] + t)[1..] == t;
    } else {
      assert (x + [sep] + t)[1..] == x[1..] + [sep] + t;
      ExplodeCons(sep, x[1..], t);
      assert [x[0]] + x[1..] == x;
    }
  }

  /** Every string is the implosion of its explosion. */
  lemma {:induction false} ImplodeExplode(sep: char, s: string)
    ensures Implode(sep, Explode(sep, s)) == s
  {
    if s != [] {
      ImplodeExplode(sep, s[1..]);
      var rest := Explode(sep, s[1..]);
      if s[0] == sep {
        assert ([""] + rest)[1..] == rest;
      } else {
        var r := [[s[0]] + rest[0]] + rest[1..];
        if |rest| == 1 {
          assert Implode(sep, rest) == rest[0];
        } else {
          assert r[1..] == rest[1..];
          assert Implode(sep, rest) == rest[0] + [sep] + Implode(sep, rest[1..]);
        }
        assert [s[0]] + s[1..] == s;
      }
    }
  }
}
