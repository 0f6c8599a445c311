/** The S-parameter reply of the analyser and its reshaping into one complex
    matrix per frequency point (the pure part of `get_s2p_network` in Lab/Lab.py).

    The reply to `CALC<n>:DATA:SNP:PORTS?` is one flat array of reals: the
    frequency row, then, for each port pair in row-major order, the row of real
    parts followed by the row of imaginary parts; every row has one value per
    frequency point. */
module Snp {
  import opened Wrappers

  datatype Complex = Complex(re: real, im: real)

  /** Why a reply cannot be reshaped; each stands for an exception numpy or Python raises. */
  datatype CaptureError =
    | NoPoints            // `len(raw) // npoints` with no sweep points
    | ReshapeFailed       // `raw.reshape((nrows, -1))` has no solution
    | MissingRows         // `real_rows[i]` or `imag_rows[i]` past the end of the reply
    | RowLengthMismatch   // a row does not fit a column of `npoints` entries

  // ---------------------------------------------------------------------------
  // Index arithmetic

  lemma MulMonotone(a: nat, b: nat, c: nat)
    requires a <= b
    ensures a * c <= b * c
  {
  }

  /** Row `r`, column `k` of an `nrows` × `ncols` block lies inside the block. */
  lemma RowIndex(r: nat, k: nat, nrows: nat, ncols: nat)
    requires r < nrows && k < ncols
    ensures r * ncols + k < nrows * ncols
  {
    MulMonotone(r + 1, nrows, ncols);
    assert (r + 1) * ncols == r * ncols + ncols;
  }

  /** Quotient and remainder are the only ones with `0 <= rem < b`. */
  lemma DivModOf(a: int, b: int, q: int, rem: int)
    requires b > 0 && 0 <= rem < b && a == q * b + rem
    ensures a / b == q && a % b == rem
  {
    var d := a / b - q;
    assert d * b == rem - a % b;
  }

  /** `len` splits into `a` rows of `b` exactly when `a` divides it with quotient `b`. */
  lemma ExactRows(len: nat, a: nat, b: nat)
    requires a > 0
    ensures len == a * b <==> len % a == 0 && len / a == b
  {
    if len == a * b {
      DivModOf(len, a, b, 0);
    }
  }

  /** Pair `(n, m)` has index `n * nports + m` below `nports * nports`. */
  lemma PairIndex(n: nat, m: nat, nports: nat)
    requires n < nports && m < nports
    ensures n * nports + m < nports * nports
    ensures (n * nports + m) / nports == n && (n * nports + m) % nports == m
  {
    RowIndex(n, m, nports, nports);
    DivModOf(n * nports + m, nports, n, m);
  }

  /** A pair index below `nports * nports` names a pair of ports. */
  lemma PairOf(i: nat, nports: nat)
    requires i < nports * nports
    ensures nports > 0 && i / nports < nports && i % nports < nports
    ensures i == (i / nports) * nports + i % nports
  {
    if i / nports >= nports {
      MulMonotone(nports, i / nports, nports);
    }
  }

  /** Position of column `k` of row `row` in rows of `ncols` values laid end to end. */
  function FlatIndex(row: nat, ncols: nat, k: nat): nat
  {
    row * ncols + k
  }

  /** Position of port pair `(n, m)` in row-major order over `nports` ports. */
  function PairNumber(n: nat, m: nat, nports: nat): nat
  {
    n * nports + m
  }

  // ---------------------------------------------------------------------------
  // Port selection and the order of the measured pairs

  /** `ports`, or all ports `1..nports` when none are given. */
  function PortsOrDefault(ports: Option<seq<int>>, nports: nat): (r: seq<int>)
    ensures ports.Some? ==> r == ports.value
    ensures ports.None? ==> |r| == nports && forall i :: 0 <= i < nports ==> r[i] == i + 1
  {
    match ports
    case Some(p) => p
    case None => seq(nports, i requires 0 <= i < nports => i + 1)
  }

  /** The pairs of `xs` × `ys` in the order `itertools.product` yields them. */
  function Product(xs: seq<int>, ys: seq<int>): (r: seq<(int, int)>)
    ensures |r| == |xs| * |ys|
  {
    if xs == [] then []
    else
      assert |xs| * |ys| == |ys| + (|xs| - 1) * |ys|;
      seq(|ys|, j requires 0 <= j < |ys| => (xs[0], ys[j])) + Product(xs[1..], ys)
  }

  /** Product order is row-major: pair `(xs[n], ys[m])` sits at `n * |ys| + m`. */
  lemma {:induction false} ProductAt(xs: seq<int>, ys: seq<int>, n: nat, m: nat)
    requires n < |xs| && m < |ys|
    ensures n * |ys| + m < |Product(xs, ys)|
    ensures Product(xs, ys)[n * |ys| + m] == (xs[n], ys[m])
  {
    RowIndex(n, m, |xs|, |ys|);
    if n > 0 {
      ProductAt(xs[1..], ys, n - 1, m);
      assert n * |ys| + m == |ys| + ((n - 1) * |ys| + m);
    }
  }

  /** The S-parameters of the capture, `S<a><b>` for each `(a, b)`, in query order. */
  function MeasuredPairs(ports: seq<int>): (r: seq<(int, int)>)
    ensures |r| == |ports| * |ports|
  {
    Product(ports, ports)
  }

  /** Pair `n * nports + m` of the capture is `S<ports[n]><ports[m]>`. */
  lemma MeasuredPairAt(ports: seq<int>, n: nat, m: nat)
    requires n < |ports| && m < |ports|
    ensures n * |ports| + m < |MeasuredPairs(ports)|
    ensures MeasuredPairs(ports)[n * |ports| + m] == (ports[n], ports[m])
  {
    ProductAt(ports, ports, n, m);
  }

  // ---------------------------------------------------------------------------
  // Rows of a flat reply

  /** `raw` cut into `nrows` consecutive rows of `ncols` values. */
  function Rows(raw: seq<real>, nrows: nat, ncols: nat): (rows: seq<seq<real>>)
    requires |raw| == nrows * ncols
    ensures |rows| == nrows
    ensures forall r :: 0 <= r < nrows ==> |rows[r]| == ncols
  {
    if nrows == 0 then []
    else
      assert |raw| == ncols + (nrows - 1) * ncols;
      [raw[..ncols]] + Rows(raw[ncols..], nrows - 1, ncols)
  }

  /** The first row, then the rows of the rest. */
  lemma RowsCons(raw: seq<real>, nrows: nat, ncols: nat)
    requires |raw| == nrows * ncols && nrows > 0
    ensures ncols <= |raw| && |raw[ncols..]| == (nrows - 1) * ncols
    ensures Rows(raw, nrows, ncols) == [raw[..ncols]] + Rows(raw[ncols..], nrows - 1, ncols)
  {
    assert |raw| == ncols + (nrows - 1) * ncols;
  }

  /** The position of column `k` in row `r` is one row past its position in row `r - 1`. */
  lemma FlatIndexNext(r: nat, ncols: nat, k: nat)
    requires r > 0
    ensures FlatIndex(r, ncols, k) == ncols + FlatIndex(r - 1, ncols, k)
  {
    assert r * ncols == (r - 1) * ncols + ncols;
  }

  /** Row `r`, column `k` is value `r * ncols + k` of the flat reply. */
  lemma {:induction false} RowsAt(raw: seq<real>, nrows: nat, ncols: nat, r: nat, k: nat)
    requires |raw| == nrows * ncols && r < nrows && k < ncols
    ensures FlatIndex(r, ncols, k) < |raw|
    ensures Rows(raw, nrows, ncols)[r][k] == raw[FlatIndex(r, ncols, k)]
  {
    RowIndex(r, k, nrows, ncols);
    RowsCons(raw, nrows, ncols);
    if r > 0 {
      RowsAt(raw[ncols..], nrows - 1, ncols, r - 1, k);
      FlatIndexNext(r, ncols, k);
    }
  }

  /** The rows laid end to end: what the analyser flattens before sending. */
  function Concat(rows: seq<seq<real>>): seq<real>
  {
    if rows == [] then [] else rows[0] + Concat(rows[1..])
  }

  lemma {:induction false} RowsOfConcat(rows: seq<seq<real>>, ncols: nat)
    requires forall r :: 0 <= r < |rows| ==> |rows[r]| == ncols
    ensures |Concat(rows)| == |rows| * ncols
    ensures Rows(Concat(rows), |rows|, ncols) == rows
  {
    if rows != [] {
      RowsOfConcat(rows[1..], ncols);
      var c := Concat(rows);
      assert c == rows[0] + Concat(rows[1..]);
      assert |rows| * ncols == ncols + (|rows| - 1) * ncols;
      assert c[..ncols] == rows[0];
      assert c[ncols..] == Concat(rows[1..]);
    }
  }

  lemma {:induction false} ConcatOfRows(raw: seq<real>, nrows: nat, ncols: nat)
    requires |raw| == nrows * ncols
    ensures Concat(Rows(raw, nrows, ncols)) == raw
  {
    if nrows > 0 {
      RowsCons(raw, nrows, ncols);
      var rest := raw[ncols..];
      ConcatOfRows(rest, nrows - 1, ncols);
      var rows := Rows(raw, nrows, ncols);
      assert Concat(rows) == rows[0] + Concat(rows[1..]);
      assert rows[1..] == Rows(rest, nrows - 1, ncols);
      assert raw == raw[..ncols] + rest;
    }
  }

  /** `d[::2]`: every value at an even position of `d`, in order. */
  function Evens<T>(d: seq<T>): (r: seq<T>)
    ensures |r| == |d| - |d| / 2
  {
    seq((|d| + 1) / 2, i requires 0 <= i < (|d| + 1) / 2 => d[2 * i])
  }

  /** `d[1::2]`: every value at an odd position of `d`, in order. */
  function Odds<T>(d: seq<T>): (r: seq<T>)
    ensures |r| == |d| / 2
  {
    seq(|d| / 2, i requires 0 <= i < |d| / 2 => d[2 * i + 1])
  }

  /** Value `j` of `d` is value `j / 2` of `d[::2]` when `j` is even and of
      `d[1::2]` when `j` is odd. */
  lemma EvensOddsAt<T>(d: seq<T>, j: nat)
    requires j < |d|
    ensures j % 2 == 0 ==> j / 2 < |Evens(d)| && Evens(d)[j / 2] == d[j]
    ensures j % 2 == 1 ==> j / 2 < |Odds(d)| && Odds(d)[j / 2] == d[j]
  {
    DivModOf(j, 2, j / 2, j % 2);
  }

  /** `a[0], b[0], a[1], b[1], ...` */
  function Interleave<T>(a: seq<T>, b: seq<T>): seq<T>
    requires |a| == |b|
  {
    seq(2 * |a|, j requires 0 <= j < 2 * |a| => if j % 2 == 0 then a[j / 2] else b[j / 2])
  }

  lemma EvensOddsOfInterleave<T>(a: seq<T>, b: seq<T>)
    requires |a| == |b|
    ensures Evens(Interleave(a, b)) == a && Odds(Interleave(a, b)) == b
  {
    var d := Interleave(a, b);
    forall i | 0 <= i < |a| ensures Evens(d)[i] == a[i] && Odds(d)[i] == b[i] {
      DivModOf(2 * i, 2, i, 0);
      DivModOf(2 * i + 1, 2, i, 1);
    }
  }

  lemma InterleaveOfEvensOdds<T>(d: seq<T>)
    requires |d| % 2 == 0
    ensures Interleave(Evens(d), Odds(d)) == d
  {
    var e := Interleave(Evens(d), Odds(d));
    forall j | 0 <= j < |d| ensures e[j] == d[j] {
      DivModOf(j, 2, j / 2, j % 2);
    }
  }

  // ---------------------------------------------------------------------------
  // Networks

  /** `s` holds `npoints` matrices of `nports` × `nports` entries. */
  predicate IsNetwork(s: seq<seq<seq<Complex>>>, npoints: nat, nports: nat)
  {
    |s| == npoints &&
    forall k :: 0 <= k < npoints ==>
      |s[k]| == nports && forall n :: 0 <= n < nports ==> |s[k][n]| == nports
  }

  /** `rows` starts with `count` rows of `npoints` values each. */
  predicate HasRows(rows: seq<seq<real>>, count: nat, npoints: nat)
  {
    |rows| >= count && forall i :: 0 <= i < count ==> |rows[i]| == npoints
  }

  /** `real_rows[i][k] + 1j * imag_rows[i][k]` for pair `i = n * nports + m`. */
  function Entry(re: seq<seq<real>>, im: seq<seq<real>>, npoints: nat, nports: nat,
                 k: nat, n: nat, m: nat): Complex
    requires HasRows(re, nports * nports, npoints) && HasRows(im, nports * nports, npoints)
    requires k < npoints && n < nports && m < nports
  {
    PairIndex(n, m, nports);
    Complex(re[n * nports + m][k], im[n * nports + m][k])
  }

  /** The matrix array `s[k][n][m]` filled from the real and imaginary rows. */
  function Assemble(re: seq<seq<real>>, im: seq<seq<real>>, npoints: nat, nports: nat)
    : (s: seq<seq<seq<Complex>>>)
    requires HasRows(re, nports * nports, npoints) && HasRows(im, nports * nports, npoints)
    ensures IsNetwork(s, npoints, nports)
  {
    seq(npoints, k requires 0 <= k < npoints =>
      seq(nports, n requires 0 <= n < nports =>
        seq(nports, m requires 0 <= m < nports => Entry(re, im, npoints, nports, k, n, m))))
  }

  lemma NetworkEquality(t: seq<seq<seq<Complex>>>, s: seq<seq<seq<Complex>>>, npoints: nat, nports: nat)
    requires IsNetwork(t, npoints, nports) && IsNetwork(s, npoints, nports)
    requires forall k, n, m :: 0 <= k < npoints && 0 <= n < nports && 0 <= m < nports ==>
      t[k][n][m] == s[k][n][m]
    ensures t == s
  {
    forall k | 0 <= k < npoints ensures t[k] == s[k] {
      forall n | 0 <= n < nports ensures t[k][n] == s[k][n] {
      }
    }
  }

  // ---------------------------------------------------------------------------
  // Reshaping a reply

  /** The number of rows `len(raw) // npoints` of a reply of `len` values, or the
      error the reshape raises for `nports` ports. */
  function ReplyRows(len: nat, npoints: nat, nports: nat): (r: Result<nat, CaptureError>)
    ensures r.Ok? ==> npoints > 0 && r.value == len / npoints
    ensures r.Ok? ==> r.value > 0 && len % r.value == 0
    ensures r.Ok? && nports > 0 ==> len / r.value == npoints
  {
    if npoints == 0 then Err(NoPoints)
    else
      var nrows := len / npoints;
      if nrows == 0 || len % nrows != 0 then Err(ReshapeFailed)
      else
        ExactRows(len, npoints, nrows);
        ExactRows(len, nrows, npoints);
        if nports == 0 then Ok(nrows)
        else if nrows - 1 < 2 then Err(MissingRows)
        else if len / nrows != npoints then Err(RowLengthMismatch)
        else if nrows - 1 < 2 * (nports * nports) then Err(MissingRows)
        else Ok(nrows)
  }

  /** The errors of a reply that does not reshape, in the order the capture meets
      them: no sweep points (division by zero), a row count that does not divide
      the reply (the reshape), too few rows for the first pair, rows that are not
      `npoints` long, and too few rows for a later pair. */
  lemma ReplyRowsErr(len: nat, npoints: nat, nports: nat)
    ensures ReplyRows(len, npoints, nports) == Err(NoPoints) <==> npoints == 0
    ensures ReplyRows(len, npoints, nports) == Err(ReshapeFailed) <==>
      npoints > 0 && (len / npoints == 0 || len % (len / npoints) != 0)
    ensures ReplyRows(len, npoints, nports) == Err(RowLengthMismatch) ==>
      nports > 0 && npoints > 0 && len / npoints >= 3 && len / (len / npoints) != npoints
    ensures ReplyRows(len, npoints, nports) == Err(MissingRows) ==>
      nports > 0 && npoints > 0 && len / npoints < 1 + 2 * (nports * nports)
    ensures nports == 0 && npoints > 0 && len / npoints > 0 && len % (len / npoints) == 0 ==>
      ReplyRows(len, npoints, nports) == Ok(len / npoints)
  {
    if nports > 0 {
      MulMonotone(1, nports, nports);
    }
  }

  /** With at least one port, a reply reshapes exactly when it is a whole number
      of rows of `npoints` values, with a frequency row and two rows per pair. */
  lemma ReplyRowsOk(len: nat, npoints: nat, nports: nat)
    requires nports > 0
    ensures ReplyRows(len, npoints, nports).Ok? <==>
      npoints > 0 && len % npoints == 0 && len / npoints >= 1 + 2 * (nports * nports)
  {
    if npoints > 0 && len % npoints == 0 && len / npoints >= 1 + 2 * (nports * nports) {
      var nrows := len / npoints;
      ExactRows(len, npoints, nrows);
      ExactRows(len, nrows, npoints);
      MulMonotone(1, nports, nports);
      assert nrows > 0 && len % nrows == 0 && len / nrows == npoints;
    }
  }

  /** The reply with its frequency row dropped and cut into rows. */
  function DataRows(raw: seq<real>, npoints: nat, nports: nat): (data: seq<seq<real>>)
    requires ReplyRows(|raw|, npoints, nports).Ok?
    ensures |data| == ReplyRows(|raw|, npoints, nports).value - 1
    ensures nports > 0 ==> forall r :: 0 <= r < |data| ==> |data[r]| == npoints
  {
    var nrows := ReplyRows(|raw|, npoints, nports).value;
    Rows(raw, nrows, |raw| / nrows)[1..]
  }

  /** The S-parameter array a capture returns for the reply `raw`. */
  function Reshaped(raw: seq<real>, npoints: nat, nports: nat): (s: seq<seq<seq<Complex>>>)
    requires ReplyRows(|raw|, npoints, nports).Ok?
    ensures IsNetwork(s, npoints, nports)
  {
    var data := DataRows(raw, npoints, nports);
    Assemble(Evens(data), Odds(data), npoints, nports)
  }

  /** Data row `2i` is row `1 + 2i` of the reply, data row `2i + 1` is row `2 + 2i`. */
  lemma DataRowsAt(raw: seq<real>, npoints: nat, nports: nat, i: nat, k: nat)
    requires ReplyRows(|raw|, npoints, nports).Ok?
    requires i < nports * nports && k < npoints
    ensures FlatIndex(1 + 2 * i, npoints, k) < |raw| && FlatIndex(2 + 2 * i, npoints, k) < |raw|
    ensures |Evens(DataRows(raw, npoints, nports))| > i && |Odds(DataRows(raw, npoints, nports))| > i
    ensures Evens(DataRows(raw, npoints, nports))[i][k] == raw[FlatIndex(1 + 2 * i, npoints, k)]
    ensures Odds(DataRows(raw, npoints, nports))[i][k] == raw[FlatIndex(2 + 2 * i, npoints, k)]
  {
    var nrows := ReplyRows(|raw|, npoints, nports).value;
    ReplyRowsOk(|raw|, npoints, nports);
    assert |raw| == nrows * npoints;
    var rows := Rows(raw, nrows, npoints);
    var data := DataRows(raw, npoints, nports);
    assert data == rows[1..];
    RowsAt(raw, nrows, npoints, 1 + 2 * i, k);
    RowsAt(raw, nrows, npoints, 2 + 2 * i, k);
  }

  lemma AssembleAt(re: seq<seq<real>>, im: seq<seq<real>>, npoints: nat, nports: nat,
                   k: nat, n: nat, m: nat)
    requires HasRows(re, nports * nports, npoints) && HasRows(im, nports * nports, npoints)
    requires k < npoints && n < nports && m < nports
    ensures n * nports + m < nports * nports
    ensures Assemble(re, im, npoints, nports)[k][n][m] ==
      Complex(re[n * nports + m][k], im[n * nports + m][k])
  {
    PairIndex(n, m, nports);
  }

  /** The real and imaginary rows of a reply that reshapes hold a row of
      `npoints` values for every pair, and the network is assembled from them. */
  lemma DataRowsShape(raw: seq<real>, npoints: nat, nports: nat)
    requires ReplyRows(|raw|, npoints, nports).Ok?
    ensures HasRows(Evens(DataRows(raw, npoints, nports)), nports * nports, npoints)
    ensures HasRows(Odds(DataRows(raw, npoints, nports)), nports * nports, npoints)
    ensures Reshaped(raw, npoints, nports) ==
      Assemble(Evens(DataRows(raw, npoints, nports)), Odds(DataRows(raw, npoints, nports)), npoints, nports)
  {
  }

  /** The entry at point `k`, pair `(n, m)` is read from row `1 + 2i` (real part)
      and row `2 + 2i` (imaginary part) of the reply, `i = n * nports + m`. */
  lemma ReshapedAt(raw: seq<real>, npoints: nat, nports: nat, k: nat, n: nat, m: nat)
    requires ReplyRows(|raw|, npoints, nports).Ok?
    requires k < npoints && n < nports && m < nports
    ensures FlatIndex(1 + 2 * PairNumber(n, m, nports), npoints, k) < |raw|
    ensures FlatIndex(2 + 2 * PairNumber(n, m, nports), npoints, k) < |raw|
    ensures Reshaped(raw, npoints, nports)[k][n][m] ==
      Complex(raw[FlatIndex(1 + 2 * PairNumber(n, m, nports), npoints, k)],
              raw[FlatIndex(2 + 2 * PairNumber(n, m, nports), npoints, k)])
  {
    var data := DataRows(raw, npoints, nports);
    var i := PairNumber(n, m, nports);
    PairIndex(n, m, nports);
    DataRowsAt(raw, npoints, nports, i, k);
    AssembleAt(Evens(data), Odds(data), npoints, nports, k, n, m);
    assert Reshaped(raw, npoints, nports) == Assemble(Evens(data), Odds(data), npoints, nports);
  }

  // ---------------------------------------------------------------------------
  // The reply the analyser sends for a known network

  /** The real (or imaginary) row of pair `i` of `s`. */
  function PairRow(s: seq<seq<seq<Complex>>>, npoints: nat, nports: nat, i: nat, imag: bool)
    : (row: seq<real>)
    requires IsNetwork(s, npoints, nports) && i < nports * nports
    ensures |row| == npoints
  {
    PairOf(i, nports);
    seq(npoints, k requires 0 <= k < npoints =>
      var z := s[k][i / nports][i % nports]; if imag then z.im else z.re)
  }

  function PairRows(s: seq<seq<seq<Complex>>>, npoints: nat, nports: nat, imag: bool)
    : (rows: seq<seq<real>>)
    requires IsNetwork(s, npoints, nports)
    ensures |rows| == nports * nports && HasRows(rows, nports * nports, npoints)
  {
    seq(nports * nports, i requires 0 <= i < nports * nports => PairRow(s, npoints, nports, i, imag))
  }

  /** Frequency row, then the real and imaginary row of each pair. */
  function ReplyRowList(freqs: seq<real>, s: seq<seq<seq<Complex>>>, nports: nat): (rows: seq<seq<real>>)
    requires IsNetwork(s, |freqs|, nports)
    ensures |rows| == 1 + 2 * (nports * nports) && rows[0] == freqs
    ensures forall r :: 0 <= r < |rows| ==> |rows[r]| == |freqs|
  {
    var pairs := Interleave(PairRows(s, |freqs|, nports, false), PairRows(s, |freqs|, nports, true));
    assert forall r :: 0 <= r < |pairs| ==> |pairs[r]| == |freqs|;
    [freqs] + pairs
  }

  /** The rows of the reply, flattened. */
  function Reply(freqs: seq<real>, s: seq<seq<seq<Complex>>>, nports: nat): seq<real>
    requires IsNetwork(s, |freqs|, nports)
  {
    Concat(ReplyRowList(freqs, s, nports))
  }

  /** The reply for a network has a frequency row and two rows per pair, and its
      data rows are the real and imaginary rows interleaved. */
  lemma ReplyShape(freqs: seq<real>, s: seq<seq<seq<Complex>>>, nports: nat)
    requires |freqs| > 0 && IsNetwork(s, |freqs|, nports)
    ensures |Reply(freqs, s, nports)| == (1 + 2 * (nports * nports)) * |freqs|
    ensures ReplyRows(|Reply(freqs, s, nports)|, |freqs|, nports) == Ok(1 + 2 * (nports * nports))
    ensures DataRows(Reply(freqs, s, nports), |freqs|, nports) ==
      Interleave(PairRows(s, |freqs|, nports, false), PairRows(s, |freqs|, nports, true))
  {
    var rows := ReplyRowList(freqs, s, nports);
    RowsOfConcat(rows, |freqs|);
    var raw := Reply(freqs, s, nports);
    ExactReply(raw, |freqs|, nports);
    assert DataRows(raw, |freqs|, nports) == rows[1..];
  }

  /** Reshaping the reply for a network gives that network back. */
  lemma ReshapedOfReply(freqs: seq<real>, s: seq<seq<seq<Complex>>>, nports: nat)
    requires |freqs| > 0 && IsNetwork(s, |freqs|, nports)
    ensures ReplyRows(|Reply(freqs, s, nports)|, |freqs|, nports).Ok?
    ensures Reshaped(Reply(freqs, s, nports), |freqs|, nports) == s
  {
    var npoints := |freqs|;
    var re := PairRows(s, npoints, nports, false);
    var im := PairRows(s, npoints, nports, true);
    ReplyShape(freqs, s, nports);
    EvensOddsOfInterleave(re, im);
    var t := Reshaped(Reply(freqs, s, nports), npoints, nports);
    assert t == Assemble(re, im, npoints, nports);
    forall k, n, m | 0 <= k < npoints && 0 <= n < nports && 0 <= m < nports
      ensures t[k][n][m] == s[k][n][m]
    {
      AssembleAt(re, im, npoints, nports, k, n, m);
      PairIndex(n, m, nports);
    }
    NetworkEquality(t, s, npoints, nports);
  }

  /** A reply of one frequency row and two rows per pair reshapes into those rows. */
  lemma ExactReply(raw: seq<real>, npoints: nat, nports: nat)
    requires npoints > 0 && |raw| == (1 + 2 * (nports * nports)) * npoints
    ensures ReplyRows(|raw|, npoints, nports) == Ok(1 + 2 * (nports * nports))
    ensures DataRows(raw, npoints, nports) == Rows(raw, 1 + 2 * (nports * nports), npoints)[1..]
  {
    var nrows := 1 + 2 * (nports * nports);
    ExactRows(|raw|, npoints, nrows);
    ExactRows(|raw|, nrows, npoints);
  }

  /** Pair row `i` of the reshaped network is data row `2i` (real part) and
      `2i + 1` (imaginary part). */
  lemma PairRowOfReshaped(raw: seq<real>, npoints: nat, nports: nat, i: nat)
    requires ReplyRows(|raw|, npoints, nports).Ok? && i < nports * nports
    ensures |Evens(DataRows(raw, npoints, nports))| > i && |Odds(DataRows(raw, npoints, nports))| > i
    ensures PairRow(Reshaped(raw, npoints, nports), npoints, nports, i, false) ==
      Evens(DataRows(raw, npoints, nports))[i]
    ensures PairRow(Reshaped(raw, npoints, nports), npoints, nports, i, true) ==
      Odds(DataRows(raw, npoints, nports))[i]
  {
    var data := DataRows(raw, npoints, nports);
    DataRowsShape(raw, npoints, nports);
    PairOf(i, nports);
    PairIndex(i / nports, i % nports, nports);
    forall k | 0 <= k < npoints
      ensures Reshaped(raw, npoints, nports)[k][i / nports][i % nports] ==
        Complex(Evens(data)[i][k], Odds(data)[i][k])
    {
      AssembleAt(Evens(data), Odds(data), npoints, nports, k, i / nports, i % nports);
    }
  }

  /** A reply of exactly one frequency row and two rows per pair is the reply for
      the network reshaped from it, at the frequencies of its first row. */
  lemma ReplyOfReshaped(raw: seq<real>, npoints: nat, nports: nat)
    requires npoints > 0 && |raw| == (1 + 2 * (nports * nports)) * npoints
    ensures ReplyRows(|raw|, npoints, nports).Ok?
    ensures Reply(raw[..npoints], Reshaped(raw, npoints, nports), nports) == raw
  {
    var nrows := 1 + 2 * (nports * nports);
    ExactReply(raw, npoints, nports);
    var rows := Rows(raw, nrows, npoints);
    var data := rows[1..];
    var s := Reshaped(raw, npoints, nports);
    var re := PairRows(s, npoints, nports, false);
    var im := PairRows(s, npoints, nports, true);
    forall i | 0 <= i < nports * nports ensures re[i] == Evens(data)[i] && im[i] == Odds(data)[i] {
      PairRowOfReshaped(raw, npoints, nports, i);
    }
    assert re == Evens(data) && im == Odds(data);
    InterleaveOfEvensOdds(data);
    assert ReplyRowList(raw[..npoints], s, nports) == rows;
    ConcatOfRows(raw, nrows, npoints);
  }
}
