/** The lookup-table kernel TVI of table_lut.cpp: M2 sub-tables of 256 entries
    each, filled once from a generator seeded with 123, and a score that adds
    one entry per sub-table, chosen by the corresponding code byte. Floats are
    modelled as reals. */
module TableLut {
  import opened RealSums

  /** Number of sub-tables, i.e. the length of a code vector. */
  const M2: nat := 10

  /** Entries per sub-table: one per byte value. */
  const BlockSize: nat := 256

  /** Largest value the 32-bit Mersenne Twister returns, 2^32 - 1. */
  const MtMax: nat := 0xFFFF_FFFF

  /** One table entry: a raw generator output divided by the generator's
      largest output. */
  function Scale(x: bv32): (r: real)
    ensures 0.0 <= r <= 1.0
    ensures r == 1.0 <==> x as int == MtMax
    ensures r == 0.0 <==> x == 0
  {
    (x as int) as real / (MtMax as real)
  }

  /** The table a construction fills from the generator's output stream. */
  function SeededTable(stream: nat -> bv32): seq<real>
  {
    seq(M2 * BlockSize, (i: int) requires 0 <= i => Scale(stream(i)))
  }

  /** Position in the whole table of the entry that code c selects in
      sub-table i. */
  function ReadIndex(i: nat, c: bv8): nat
  {
    i * BlockSize + c as int
  }

  /** What the pointer walk accumulates after k steps: the entries that
      codes[0..k) select, one per sub-table, added in order. */
  function BlockSum(table: seq<real>, codes: seq<bv8>, k: nat): real
    requires k <= |codes|
    requires k * BlockSize <= |table|
  {
    if k == 0 then 0.0
    else BlockSum(table, codes, k - 1) + table[ReadIndex(k - 1, codes[k - 1])]
  }

  /** A full score: one lookup in each of the M2 sub-tables. */
  function Score(table: seq<real>, codes: seq<bv8>): real
    requires |codes| == M2
    requires |table| == M2 * BlockSize
  {
    BlockSum(table, codes, M2)
  }

  /** The entries a score reads, in order: entry i lies in sub-table i. */
  function Lookups(table: seq<real>, codes: seq<bv8>, k: nat): seq<real>
    requires k <= |codes|
    requires k * BlockSize <= |table|
  {
    seq(k, (i: int) requires 0 <= i < k => table[ReadIndex(i, codes[i])])
  }

  /** Every code byte selects an entry inside its own sub-table, so a walk
      over M2 sub-tables never reads past the M2 * 256 entries of the table. */
  lemma ReadIndexInBlock(i: nat, c: bv8)
    ensures i * BlockSize <= ReadIndex(i, c) < (i + 1) * BlockSize
    ensures i < M2 ==> ReadIndex(i, c) < M2 * BlockSize
  {}

  /** The pointer walk adds exactly the entries the codes select: the sum of
      the lookups. */
  lemma {:induction false} BlockSumIsSumOfLookups(table: seq<real>, codes: seq<bv8>, k: nat)
    requires k <= |codes|
    requires k * BlockSize <= |table|
    ensures BlockSum(table, codes, k) == Sum(Lookups(table, codes, k))
  {
    if k > 0 {
      BlockSumIsSumOfLookups(table, codes, k - 1);
      assert Lookups(table, codes, k)[..k - 1] == Lookups(table, codes, k - 1);
    }
  }

  /** With every code 0, a score adds the first entry of each sub-table. */
  lemma ZeroCodesReadFirstEntries(table: seq<real>)
    requires |table| == M2 * BlockSize
    ensures Score(table, seq(M2, _ => 0 as bv8))
      == Sum(seq(M2, (i: int) requires 0 <= i < M2 => table[i * BlockSize]))
  {
    var codes := seq(M2, _ => 0 as bv8);
    BlockSumIsSumOfLookups(table, codes, M2);
    assert Lookups(table, codes, M2) == seq(M2, (i: int) requires 0 <= i < M2 => table[i * BlockSize]);
  }

  /** With entries in [0, 1], as a seeded table has, a walk of k steps gives
      a value in [0, k]. */
  lemma {:induction false} BlockSumInRange(table: seq<real>, codes: seq<bv8>, k: nat)
    requires k <= |codes|
    requires k * BlockSize <= |table|
    requires forall i :: 0 <= i < |table| ==> 0.0 <= table[i] <= 1.0
    ensures 0.0 <= BlockSum(table, codes, k) <= k as real
  {
    if k > 0 {
      BlockSumInRange(table, codes, k - 1);
      ReadIndexInBlock(k - 1, codes[k - 1]);
    }
  }

  /** Only the first k codes matter to a walk of k steps. */
  lemma {:induction false} BlockSumReadsPrefix(table: seq<real>, codes: seq<bv8>, other: seq<bv8>, k: nat)
    requires k <= |codes| && k <= |other|
    requires k * BlockSize <= |table|
    requires codes[..k] == other[..k]
    ensures BlockSum(table, codes, k) == BlockSum(table, other, k)
  {
    if k > 0 {
      assert codes[k - 1] == codes[..k][k - 1];
      assert other[k - 1] == other[..k][k - 1];
      assert codes[..k - 1] == codes[..k][..k - 1];
      assert other[..k - 1] == other[..k][..k - 1];
      BlockSumReadsPrefix(table, codes, other, k - 1);
    }
  }

  lemma MultiplyStep(k: nat, v: real)
    requires k > 0
    ensures (k as real) * v == ((k - 1) as real) * v + v
  {}

  /** A table whose entries all equal v gives k * v after k steps. */
  lemma {:induction false} BlockSumConstant(table: seq<real>, codes: seq<bv8>, k: nat, v: real)
    requires k <= |codes|
    requires k * BlockSize <= |table|
    requires forall i :: 0 <= i < |table| ==> table[i] == v
    ensures BlockSum(table, codes, k) == (k as real) * v
  {
    if k > 0 {
      BlockSumConstant(table, codes, k - 1, v);
      ReadIndexInBlock(k - 1, codes[k - 1]);
      assert table[ReadIndex(k - 1, codes[k - 1])] == v;
      MultiplyStep(k, v);
    }
  }

  /** The kernel reached through virtual dispatch. */
  class TVI {
    var lut: array<real>

    /** The table always has M2 sub-tables of 256 entries. */
    ghost predicate Valid()
      reads this
    {
      lut.Length == M2 * BlockSize
    }

    /** Sizes the table to M2 * 256 entries and fills entry i with the i-th
        output of the generator seeded with 123, scaled into [0, 1].
        `stream` is that generator's output sequence. */
    constructor (stream: nat -> bv32)
      ensures Valid() && fresh(lut)
      ensures lut[..] == SeededTable(stream)
      ensures forall i :: 0 <= i < lut.Length ==> 0.0 <= lut[i] <= 1.0
    {
      var table := new real[M2 * BlockSize];
      var i := 0;
      while i < table.Length
        invariant 0 <= i <= table.Length
        invariant forall j :: 0 <= j < i ==> table[j] == Scale(stream(j))
      {
        table[i] := Scale(stream(i));
        i := i + 1;
      }
      lut := table;
    }

    /** The score of the first M2 codes: walks a cursor over the table one
        sub-table (256 entries) per step and adds the entry each code selects.
        Reads neither more than M2 codes nor outside the table, and changes
        nothing. */
    method F(codes: array<bv8>) returns (accu: real)
      requires Valid()
      requires M2 <= codes.Length
      ensures accu == Score(lut[..], codes[..M2])
    {
      var luti := 0;  // offset of the cursor from the start of lut
      accu := 0.0;
      for i := 0 to M2
        invariant luti == i * BlockSize
        invariant accu == BlockSum(lut[..], codes[..M2], i)
      {
        accu := accu + lut[luti + codes[i] as int];
        luti := luti + BlockSize;
      }
    }
  }
}
