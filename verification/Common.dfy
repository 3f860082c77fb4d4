/** Shared vocabulary: optional values, results, bytes and decimal numerals. */
module Common {

  datatype Option<+T> = None | Some(value: T)

  datatype Result<+T, +E> = Ok(value: T) | Err(error: E)

  type byte = x: int | 0 <= x < 256

  const ESC: byte := 0x1b

  /** The largest int of a 64-bit platform, the last one strconv.Atoi accepts. */
  const MAX_INT: nat := 0x7fff_ffff_ffff_ffff

  /** A member of a nonempty set. */
  lemma Pick<T>(s: set<T>) returns (x: T)
    requires s != {}
    ensures x in s
  {
    x :| x in s;
  }

  lemma SplitAt<T>(s: seq<T>, n: nat)
    requires n <= |s|
    ensures s[..n] + s[n..] == s
  {
  }

  lemma AppendNothing<T>(s: seq<T>)
    ensures s + [] == s && [] + s == s && s[..|s|] == s
  {
  }

  lemma AppendAssoc<T>(a: seq<T>, b: seq<T>, c: seq<T>)
    ensures a + b + c == a + (b + c)
  {
  }

  function SpaceText(n: nat): (s: string)
    ensures |s| == n
  {
    seq(n, _ => ' ')
  }

  /** All pieces of a sequence of sequences, end to end. */
  function Concat<T>(pieces: seq<seq<T>>): seq<T> {
    if pieces == [] then [] else pieces[0] + Concat(pieces[1..])
  }

  lemma {:induction false} ConcatAppend<T>(a: seq<seq<T>>, b: seq<seq<T>>)
    ensures Concat(a + b) == Concat(a) + Concat(b)
  {
    if a == [] {
      AppendNothing(b);
    } else {
      ConcatAppend(a[1..], b);
      TailOfAppend(a, b);
      AppendAssoc(a[0], Concat(a[1..]), Concat(b));
    }
  }

  lemma TailOfAppend<T>(a: seq<T>, b: seq<T>)
    requires a != []
    ensures (a + b)[1..] == a[1..] + b && (a + b)[0] == a[0]
  {
  }
}

/** Decimal numerals as digit values, printed most significant first and read left to right. */
module Decimal {

  type digit = d: int | 0 <= d < 10

  function Digits(n: nat): (ds: seq<digit>) {
    if n < 10 then [n] else Digits(n / 10) + [n % 10]
  }

  /** The value a reader has accumulated after `ds`, having started from `acc`. */
  function Accumulate(acc: nat, ds: seq<digit>): nat
    decreases ds
  {
    if ds == [] then acc else Accumulate(10 * acc + ds[0], ds[1..])
  }

  lemma {:induction false} AccumulateSnoc(acc: nat, ds: seq<digit>, d: digit)
    ensures Accumulate(acc, ds + [d]) == 10 * Accumulate(acc, ds) + d
    decreases ds
  {
    if ds != [] {
      assert (ds + [d])[1..] == ds[1..] + [d];
      AccumulateSnoc(10 * acc + ds[0], ds[1..], d);
    }
  }

  lemma {:induction false} ReadBack(n: nat)
    ensures |Digits(n)| > 0 && Accumulate(0, Digits(n)) == n
  {
    if n >= 10 {
      ReadBack(n / 10);
      AccumulateSnoc(0, Digits(n / 10), n % 10);
    }
  }
}
