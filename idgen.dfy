/**
 * The message id generator.
 *
 * The source draws every id from one process-wide generator of unique
 * identifiers (a foreign library). Here the generator is an object handed to
 * the constructors: a fixed prefix followed by a sequence number written in
 * base 62, the number growing by one on every call. What the constructors
 * rely on is only that `Next` never returns an id it has returned before.
 */
module IdGen {

  /** Base-62 digit for `d`: 0-9, then A-Z, then a-z. */
  function DigitChar(d: nat): (c: char)
    requires d < 62
    ensures DigitValue(c) == d
  {
    if d < 10 then ('0' as int + d) as char
    else if d < 36 then ('A' as int + (d - 10)) as char
    else ('a' as int + (d - 36)) as char
  }

  /** Value of a base-62 digit; characters outside the alphabet read as 0. */
  function DigitValue(c: char): nat
  {
    if '0' <= c <= '9' then c as int - '0' as int
    else if 'A' <= c <= 'Z' then c as int - 'A' as int + 10
    else if 'a' <= c <= 'z' then c as int - 'a' as int + 36
    else 0
  }

  /** `n` in base 62, most significant digit first, without leading zeros. */
  function ToBase62(n: nat): (s: string)
    ensures |s| >= 1
    decreases n
  {
    if n < 62 then [DigitChar(n)] else ToBase62(n / 62) + [DigitChar(n % 62)]
  }

  /** The number a base-62 string denotes. */
  function FromBase62(s: string): nat
    decreases |s|
  {
    if s == [] then 0 else FromBase62(s[..|s| - 1]) * 62 + DigitValue(s[|s| - 1])
  }

  /** Reading back a written sequence number gives that number. */
  lemma {:induction false} FromToBase62(n: nat)
    ensures FromBase62(ToBase62(n)) == n
    decreases n
  {
    if n >= 62 {
      var s := ToBase62(n);
      assert s[..|s| - 1] == ToBase62(n / 62);
      FromToBase62(n / 62);
    }
  }

  /** The id issued for sequence number `k` by a generator with `prefix`. */
  function IdAt(prefix: string, k: nat): string
  {
    prefix + ToBase62(k)
  }

  /** The sequence number an id issued under `prefix` carries. */
  function SeqOf(prefix: string, id: string): nat
    requires |prefix| <= |id|
  {
    FromBase62(id[|prefix|..])
  }

  /** Every id carries its own sequence number, so ids are never reused. */
  lemma IdAtSeqOf(prefix: string, k: nat)
    ensures |prefix| <= |IdAt(prefix, k)|
    ensures SeqOf(prefix, IdAt(prefix, k)) == k
  {
    assert IdAt(prefix, k)[|prefix|..] == ToBase62(k);
    FromToBase62(k);
  }

  /** Two different sequence numbers give two different ids. */
  lemma IdAtInjective(prefix: string, i: nat, j: nat)
    requires i != j
    ensures IdAt(prefix, i) != IdAt(prefix, j)
  {
    IdAtSeqOf(prefix, i);
    IdAtSeqOf(prefix, j);
  }

  class IdGenerator {
    const prefix: string
    var next: nat
    /** Every id handed out so far. */
    ghost var issued: set<string>

    /** Each issued id is the prefix followed by a sequence number already used. */
    ghost predicate Valid()
      reads this
    {
      forall id | id in issued :: |prefix| <= |id| && SeqOf(prefix, id) < next
    }

    constructor (prefix: string)
      ensures Valid() && this.prefix == prefix && issued == {}
    {
      this.prefix := prefix;
      next := 0;
      issued := {};
    }

    /** A new id, never returned by this generator before. */
    method Next() returns (id: string)
      requires Valid()
      modifies this
      ensures Valid()
      ensures id !in old(issued)
      ensures issued == old(issued) + {id}
      ensures id == IdAt(prefix, old(next))
    {
      id := IdAt(prefix, next);
      IdAtSeqOf(prefix, next);
      next := next + 1;
      issued := issued + {id};
    }
  }
}
