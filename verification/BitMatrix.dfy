/** Bit matrices in one flat array of 64-bit words, `words` words a row. A word
    is the set of its one bits. */
module BitMatrices {

  type Word = set<nat>

  ghost predicate Bits64(w: Word) {
    forall b | b in w :: b < 64
  }

  function Column(k: nat, b: nat): nat {
    64 * k + b
  }

  lemma ColumnUnique(k: nat, b: nat, c: nat)
    requires b < 64
    ensures Column(k, b) == c <==> k == c / 64 && b == c % 64
  {
  }

  lemma ColumnOrder(m: nat, b: nat, k: nat)
    requires b < 64
    ensures Column(m, b) < 64 * k <==> m < k
  {
    if m < k {
      assert 64 * (m + 1) <= 64 * k;
    } else {
      assert 64 * k <= 64 * m;
    }
  }

  /** The columns set in a row of `words` words. */
  ghost predicate RowIs(bits: seq<Word>, words: nat, row: nat, columns: set<nat>)
    requires (row + 1) * words <= |bits|
  {
    && (forall k | 0 <= k < words :: Bits64(At(bits, words, row, k)))
    && (forall c | c in columns :: c < 64 * words)
    && forall k, b | 0 <= k < words && 0 <= b < 64 :: Column(k, b) in columns <==> b in At(bits, words, row, k)
  }

  lemma Inside(words: nat, row: nat, rows: nat, k: nat)
    requires row < rows && k < words
    ensures row * words + k < rows * words && (row + 1) * words <= rows * words
  {
    assert (row + 1) * words <= rows * words;
  }

  ghost function At(bits: seq<Word>, words: nat, row: nat, k: nat): Word
    requires (row + 1) * words <= |bits| && k < words
  {
    assert row * words + k < (row + 1) * words;
    bits[row * words + k]
  }

  /** The matrix with these rows. */
  ghost predicate Matrix(bits: seq<Word>, words: nat, rows: seq<set<nat>>) {
    && |bits| == |rows| * words
    && forall r | 0 <= r < |rows| :: RowBounded(bits, words, r, |rows|) && RowIs(bits, words, r, rows[r])
  }

  ghost predicate RowBounded(bits: seq<Word>, words: nat, r: nat, rows: nat) {
    (r + 1) * words <= |bits|
  }

  /** Cells of different rows, or different words, are different. */
  lemma CellsApart(words: nat, r: nat, k: nat, s: nat, m: nat)
    requires k < words && m < words && (r != s || k != m)
    ensures r * words + k != s * words + m
  {
    if r < s {
      assert (r + 1) * words <= s * words;
    } else if s < r {
      assert (s + 1) * words <= r * words;
    }
  }

  lemma RowsFit(words: nat, r: nat, rows: nat)
    requires r < rows
    ensures (r + 1) * words <= rows * words
  {
  }

  lemma SplitColumn(words: nat, c: nat)
    requires c < 64 * words
    ensures c / 64 < words && c % 64 < 64 && 64 * (c / 64) + c % 64 == c
  {
  }

  /** Updating one word changes one row. */
  lemma UpdateWord(bits: seq<Word>, words: nat, rows: seq<set<nat>>, r: nat, k: nat, w: Word, columns: set<nat>)
    requires Matrix(bits, words, rows) && r < |rows| && k < words && Bits64(w)
    requires r * words + k < |bits|
    requires RowIs(bits[r * words + k := w], words, r, columns)
    ensures Matrix(bits[r * words + k := w], words, rows[r := columns])
  {
    var after := bits[r * words + k := w];
    forall s | 0 <= s < |rows|
      ensures RowBounded(after, words, s, |rows|) && RowIs(after, words, s, rows[r := columns][s])
    {
      RowsFit(words, s, |rows|);
      if s != r {
        assert RowIs(bits, words, s, rows[s]);
        forall m | 0 <= m < words
          ensures At(after, words, s, m) == At(bits, words, s, m)
        {
          CellsApart(words, r, k, s, m);
        }
      }
    }
  }

  lemma SameRow(bits: seq<Word>, words: nat, rows: seq<set<nat>>, r: nat, k: nat, w: Word)
    requires Matrix(bits, words, rows) && r < |rows| && k < words && r * words + k < |bits|
    ensures (r + 1) * words <= |bits|
    ensures forall m | 0 <= m < words ::
      At(bits[r * words + k := w], words, r, m) == if m == k then w else At(bits, words, r, m)
    ensures RowIs(bits, words, r, rows[r])
  {
    assert RowBounded(bits, words, r, |rows|) && RowIs(bits, words, r, rows[r]);
    forall m | 0 <= m < words
      ensures At(bits[r * words + k := w], words, r, m) == if m == k then w else At(bits, words, r, m)
    {
      if m != k {
        CellsApart(words, r, k, r, m);
      }
    }
  }

  /** `set_bit`. */
  method SetBit(bits: array<Word>, words: nat, row: nat, column: nat, ghost rows: seq<set<nat>>)
    requires Matrix(bits[..], words, rows) && row < |rows| && column < 64 * words
    modifies bits
    ensures Matrix(bits[..], words, rows[row := rows[row] + {column}])
  {
    SplitColumn(words, column);
    Inside(words, row, |rows|, column / 64);
    var cell := row * words + column / 64;
    ghost var before := bits[..];
    ghost var w := before[cell] + {column % 64};
    SameRow(before, words, rows, row, column / 64, w);
    bits[cell] := bits[cell] + {column % 64};
    assert bits[..] == before[cell := w];
    SetRow(before, words, rows[row], row, column, w);
    UpdateWord(before, words, rows, row, column / 64, w, rows[row] + {column});
  }

  lemma SetRow(bits: seq<Word>, words: nat, columns: set<nat>, row: nat, column: nat, w: Word)
    requires (row + 1) * words <= |bits| && column < 64 * words && column / 64 < words
      && row * words + column / 64 < |bits|
    requires RowIs(bits, words, row, columns) && w == bits[row * words + column / 64] + {column % 64}
    requires forall m | 0 <= m < words ::
      At(bits[row * words + column / 64 := w], words, row, m) == if m == column / 64 then w else At(bits, words, row, m)
    ensures Bits64(w) && RowIs(bits[row * words + column / 64 := w], words, row, columns + {column})
  {
    var after := bits[row * words + column / 64 := w];
    assert At(bits, words, row, column / 64) == bits[row * words + column / 64];
    forall k, b | 0 <= k < words && 0 <= b < 64
      ensures Column(k, b) in columns + {column} <==> b in At(after, words, row, k)
    {
      ColumnUnique(k, b, column);
      assert Column(k, b) in columns <==> b in At(bits, words, row, k);
    }
    forall k | 0 <= k < words
      ensures Bits64(At(after, words, row, k))
    {
      assert Bits64(At(bits, words, row, k)) && Bits64(At(bits, words, row, column / 64));
    }
  }

  /** `get_bit`. */
  method GetBit(bits: seq<Word>, words: nat, row: nat, column: nat, ghost rows: seq<set<nat>>) returns (set_: bool)
    requires Matrix(bits, words, rows) && row < |rows| && column < 64 * words
    ensures set_ <==> column in rows[row]
  {
    SplitColumn(words, column);
    Inside(words, row, |rows|, column / 64);
    assert RowBounded(bits, words, row, |rows|) && RowIs(bits, words, row, rows[row]);
    assert At(bits, words, row, column / 64) == bits[row * words + column / 64];
    set_ := column % 64 in bits[row * words + column / 64];
  }

  /** What `or_row` has done to row `dst` after its first `k` words. */
  ghost function OrUpTo(dst: set<nat>, src: set<nat>, k: nat): set<nat> {
    dst + set c | c in src && c < 64 * k
  }

  /** `or_row`: row `dst` gets the bits of row `src`. */
  method OrRow(bits: array<Word>, words: nat, src: nat, dst: nat, ghost rows: seq<set<nat>>)
    requires Matrix(bits[..], words, rows) && src < |rows| && dst < |rows| && src != dst
    modifies bits
    ensures Matrix(bits[..], words, rows[dst := rows[dst] + rows[src]])
  {
    hide Matrix;
    assert OrUpTo(rows[dst], rows[src], 0) == rows[dst];
    assert rows[dst := OrUpTo(rows[dst], rows[src], 0)] == rows;
    MatrixSize(bits[..], words, rows);
    for k := 0 to words
      invariant bits.Length == |rows| * words
      invariant Matrix(bits[..], words, rows[dst := OrUpTo(rows[dst], rows[src], k)])
    {
      Inside(words, src, |rows|, k);
      Inside(words, dst, |rows|, k);
      ghost var before, current := bits[..], rows[dst := OrUpTo(rows[dst], rows[src], k)];
      var value := bits[src * words + k];
      bits[dst * words + k] := bits[dst * words + k] + value;
      ghost var w := before[dst * words + k] + before[src * words + k];
      assert bits[..] == before[dst * words + k := w];
      OrWord(before, words, rows, src, dst, k);
      UpdateWord(before, words, current, dst, k, w, OrUpTo(rows[dst], rows[src], k + 1));
      assert current[dst := OrUpTo(rows[dst], rows[src], k + 1)] == rows[dst := OrUpTo(rows[dst], rows[src], k + 1)];
    }
    AllColumns(bits[..], words, rows, src, dst);
  }

  lemma MatrixSize(bits: seq<Word>, words: nat, rows: seq<set<nat>>)
    requires Matrix(bits, words, rows)
    ensures |bits| == |rows| * words
  {
  }

  lemma AllColumns(bits: seq<Word>, words: nat, rows: seq<set<nat>>, src: nat, dst: nat)
    requires src < |rows| && dst < |rows| && src != dst
      && Matrix(bits, words, rows[dst := OrUpTo(rows[dst], rows[src], words)])
    ensures OrUpTo(rows[dst], rows[src], words) == rows[dst] + rows[src]
  {
    var current := rows[dst := OrUpTo(rows[dst], rows[src], words)];
    assert RowBounded(bits, words, src, |current|) && RowIs(bits, words, src, current[src]);
  }

  lemma OrWord(bits: seq<Word>, words: nat, rows: seq<set<nat>>, src: nat, dst: nat, k: nat)
    requires src < |rows| && dst < |rows| && src != dst && k < words
    requires Matrix(bits, words, rows[dst := OrUpTo(rows[dst], rows[src], k)])
    requires dst * words + k < |bits| && src * words + k < |bits|
    ensures Bits64(bits[dst * words + k] + bits[src * words + k])
    ensures (dst + 1) * words <= |bits|
    ensures RowIs(bits[dst * words + k := bits[dst * words + k] + bits[src * words + k]], words, dst,
      OrUpTo(rows[dst], rows[src], k + 1))
  {
    var current := rows[dst := OrUpTo(rows[dst], rows[src], k)];
    var w := bits[dst * words + k] + bits[src * words + k];
    var after := bits[dst * words + k := w];
    SameRow(bits, words, current, dst, k, w);
    assert RowBounded(bits, words, src, |current|) && RowIs(bits, words, src, current[src]);
    assert At(bits, words, src, k) == bits[src * words + k] && At(bits, words, dst, k) == bits[dst * words + k];
    forall m, b | 0 <= m < words && 0 <= b < 64
      ensures Column(m, b) in OrUpTo(rows[dst], rows[src], k + 1) <==> b in At(after, words, dst, m)
    {
      ColumnOrder(m, b, k);
      ColumnOrder(m, b, k + 1);
      assert Column(m, b) in current[dst] <==> b in At(bits, words, dst, m);
      assert Column(m, b) in rows[src] <==> b in At(bits, words, src, m);
    }
    forall m | 0 <= m < words
      ensures Bits64(At(after, words, dst, m))
    {
      assert Bits64(At(bits, words, dst, m)) && Bits64(At(bits, words, dst, k)) && Bits64(At(bits, words, src, k));
    }
  }

  // ---------------------------------------------------------------- counting

  ghost function ColumnsBelow(columns: set<nat>, k: nat): set<nat> {
    set c | c in columns && c < 64 * k
  }

  lemma {:induction false} ShiftSize(w: Word, k: nat, columns: set<nat>)
    requires columns == set b | b in w :: Column(k, b)
    ensures |columns| == |w|
  {
    if w == {} {
      assert columns == {};
    } else {
      var b :| b in w;
      var rest := set x | x in w - {b} :: Column(k, x);
      ShiftSize(w - {b}, k, rest);
      forall c
        ensures c in columns <==> c in rest + {Column(k, b)}
      {
        if c in columns {
          var x :| x in w && c == Column(k, x);
          assert x == b || x in w - {b};
        }
      }
      assert columns == rest + {Column(k, b)};
      assert Column(k, b) !in rest;
    }
  }

  /** `count_ones` summed over a row counts its columns. */
  method CountRow(bits: seq<Word>, words: nat, row: nat, ghost rows: seq<set<nat>>) returns (count: nat)
    requires Matrix(bits, words, rows) && row < |rows|
    ensures count == |rows[row]|
  {
    ghost var columns := rows[row];
    assert RowBounded(bits, words, row, |rows|) && RowIs(bits, words, row, columns);
    hide Matrix;
    count := 0;
    assert ColumnsBelow(columns, 0) == {};
    for k := 0 to words
      invariant count == |ColumnsBelow(columns, k)|
    {
      Inside(words, row, |rows|, k);
      MatrixSize(bits, words, rows);
      CountWord(bits, words, row, columns, k);
      count := count + |bits[row * words + k]|;
    }
    assert ColumnsBelow(columns, words) == columns;
  }

  lemma CountWord(bits: seq<Word>, words: nat, row: nat, columns: set<nat>, k: nat)
    requires (row + 1) * words <= |bits| && RowIs(bits, words, row, columns) && k < words && row * words + k < |bits|
    ensures |ColumnsBelow(columns, k + 1)| == |ColumnsBelow(columns, k)| + |bits[row * words + k]|
  {
    var w := At(bits, words, row, k);
    var here := set b | b in w :: Column(k, b);
    ShiftSize(w, k, here);
    forall c
      ensures c in ColumnsBelow(columns, k + 1) <==> c in ColumnsBelow(columns, k) + here
    {
      if c in ColumnsBelow(columns, k + 1) && c >= 64 * k {
        assert Column(k, c - 64 * k) == c && c - 64 * k in w;
      }
      if c in here {
        var b :| b in w && c == Column(k, b);
      }
    }
    assert ColumnsBelow(columns, k + 1) == ColumnsBelow(columns, k) + here;
    assert ColumnsBelow(columns, k) !! here;
  }
}
