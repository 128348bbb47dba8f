/**
 * The pure data-shaping steps of `data_processing/data.py`: the
 * order-keeping de-duplication, the in-place symmetrisation of a square
 * matrix, the line classifier that turns `countryinfo.txt` into one
 * dictionary per country, and the indexing and accumulation that build
 * the flight travel matrix from spreadsheet rows.
 */
module DataProc {
  import opened Wrappers
  import opened Text
  import Buckets

  // ---------------------------------------------------- make_unique_list

  /** The elements of `s` at their first occurrence, in order. */
  function Dedup<T(==)>(s: seq<T>): seq<T>
  {
    if s == [] then []
    else
      var r := Dedup(s[..|s| - 1]);
      if s[|s| - 1] in r then r else r + [s[|s| - 1]]
  }

  /** `s.index(x)`: the position of the first occurrence of `x`. */
  function IndexOf<T(==)>(s: seq<T>, x: T): (i: nat)
    requires x in s
    ensures i < |s| && s[i] == x && x !in s[..i]
  {
    if s[0] == x then 0 else 1 + IndexOf(s[1..], x)
  }

  /** The first occurrence of `x` in `s` is its only occurrence in a prefix of `s` that holds it. */
  lemma {:induction false} IndexOfPrefix<T>(s: seq<T>, k: nat, x: T)
    requires k <= |s| && x in s[..k]
    ensures IndexOf(s, x) == IndexOf(s[..k], x)
  {
    if s[0] != x {
      assert s[..k][1..] == s[1..][..k - 1];
      IndexOfPrefix(s[1..], k - 1, x);
    }
  }

  /** A position holding `x` with no earlier `x` is the first occurrence. */
  lemma {:induction false} IndexOfFirst<T>(s: seq<T>, k: nat, x: T)
    requires k < |s| && s[k] == x && x !in s[..k]
    ensures IndexOf(s, x) == k
  {
    if k > 0 {
      assert s[0] == s[..k][0];
      assert s[1..][..k - 1] == s[..k][1..];
      IndexOfFirst(s[1..], k - 1, x);
    }
  }

  /**
   * `make_unique_list(s)` has no repeats, holds exactly the elements of
   * `s`, and lists them in the order of their first occurrence in `s`.
   */
  lemma {:induction false} DedupSpec<T>(s: seq<T>)
    ensures Buckets.NoDup(Dedup(s))
    ensures forall x :: x in Dedup(s) <==> x in s
    ensures forall i, j :: 0 <= i < j < |Dedup(s)| ==> IndexOf(s, Dedup(s)[i]) < IndexOf(s, Dedup(s)[j])
  {
    if s != [] {
      var init, last := s[..|s| - 1], s[|s| - 1];
      var r := Dedup(init);
      DedupSpec(init);
      assert s == init + [last];
      forall x | x in init
        ensures IndexOf(s, x) == IndexOf(init, x)
      {
        IndexOfPrefix(s, |s| - 1, x);
      }
      if last !in r {
        var r' := r + [last];
        IndexOfFirst(s, |s| - 1, last);
        forall i, j | 0 <= i < j < |r'|
          ensures r'[i] != r'[j] && IndexOf(s, r'[i]) < IndexOf(s, r'[j])
        {
          assert r'[i] == r[i];
          var x := r[i];
          assert x in r;
          if j < |r| {
            assert r'[j] == r[j];
          }
        }
      }
    }
  }

  /** The elements part of `DedupSpec` on its own. */
  lemma DedupElements<T>(s: seq<T>)
    ensures forall x :: x in Dedup(s) <==> x in s
  {
    DedupSpec(s);
  }

  /** `make_unique_list`: append each element not yet in the result. */
  method MakeUniqueList<T(==)>(elements: seq<T>) returns (result: seq<T>)
    ensures result == Dedup(elements)
  {
    result := [];
    var n := 0;
    while n < |elements|
      invariant 0 <= n <= |elements|
      invariant result == Dedup(elements[..n])
    {
      var e := elements[n];
      assert elements[..n + 1][..n] == elements[..n];
      if e !in result {
        result := result + [e];
      }
      n := n + 1;
    }
    assert elements[..n] == elements;
  }

  // --------------------------------------------------- symmetrize_matrix

  /** A matrix as rows of values. */
  type Matrix = seq<seq<real>>

  /** Every row is as long as there are rows. */
  predicate Square(m: Matrix)
  {
    forall i :: 0 <= i < |m| ==> |m[i]| == |m|
  }

  /** `m[i][j] == m[j][i]` everywhere. */
  predicate Symmetric(m: Matrix)
    requires Square(m)
  {
    forall i, j :: 0 <= i < |m| && 0 <= j < |m| ==> m[i][j] == m[j][i]
  }

  /** The average of the two entries mirrored about the diagonal. */
  function Mean(m: Matrix, i: nat, j: nat): real
    requires Square(m) && i < |m| && j < |m|
  {
    0.5 * (m[i][j] + m[j][i])
  }

  /**
   * What `symmetrize_matrix` leaves: the diagonal as it was, every other
   * entry the mean of itself and its mirror image.
   */
  function Symmetrize(m: Matrix): (r: Matrix)
    requires Square(m)
    ensures |r| == |m| && Square(r)
  {
    seq(|m|, i requires 0 <= i < |m| =>
      seq(|m|, j requires 0 <= j < |m| => if i == j then m[i][j] else Mean(m, i, j)))
  }

  /** The result is symmetric and keeps the diagonal. */
  lemma SymmetrizeSymmetric(m: Matrix)
    requires Square(m)
    ensures Symmetric(Symmetrize(m))
    ensures forall i :: 0 <= i < |m| ==> Symmetrize(m)[i][i] == m[i][i]
  {
  }

  /** An already symmetric matrix is left as it is. */
  lemma SymmetrizeKeepsSymmetric(m: Matrix)
    requires Square(m) && Symmetric(m)
    ensures Symmetrize(m) == m
  {
    var r := Symmetrize(m);
    forall i | 0 <= i < |m|
      ensures r[i] == m[i]
    {
      assert forall j :: 0 <= j < |m| ==> r[i][j] == m[i][j];
    }
  }

  /** Symmetrising twice is symmetrising once. */
  lemma SymmetrizeIdempotent(m: Matrix)
    requires Square(m)
    ensures Symmetrize(Symmetrize(m)) == Symmetrize(m)
  {
    SymmetrizeSymmetric(m);
    SymmetrizeKeepsSymmetric(Symmetrize(m));
  }

  /** The contents of a two-dimensional array as rows. */
  function Grid(a: array2<real>): (r: Matrix)
    reads a
    ensures |r| == a.Length0
    ensures forall i :: 0 <= i < |r| ==> |r[i]| == a.Length1
    ensures forall i, j :: 0 <= i < a.Length0 && 0 <= j < a.Length1 ==> r[i][j] == a[i, j]
  {
    seq(a.Length0, i reads a requires 0 <= i < a.Length0 =>
      seq(a.Length1, j reads a requires 0 <= j < a.Length1 => a[i, j]))
  }

  /** Entry `(p, q)` has been visited after rows before `i` and columns before `j` of row `i`. */
  predicate Visited(i: int, j: int, p: int, q: int)
  {
    p < i || q < i || (p == i && q < j) || (q == i && p < j)
  }

  /**
   * `symmetrize_matrix(matrix)`: for every ordered pair `i != j` in turn,
   * both mirrored entries take their average.
   */
  method SymmetrizeMatrix(a: array2<real>)
    requires a.Length0 == a.Length1
    modifies a
    ensures Grid(a) == Symmetrize(old(Grid(a)))
  {
    ghost var m := Grid(a);
    var n := a.Length0;
    for i := 0 to n
      invariant forall p, q :: 0 <= p < n && 0 <= q < n ==>
        a[p, q] == if p != q && Visited(i, 0, p, q) then Mean(m, p, q) else m[p][q]
    {
      for j := 0 to n
        invariant forall p, q :: 0 <= p < n && 0 <= q < n ==>
          a[p, q] == if p != q && Visited(i, j, p, q) then Mean(m, p, q) else m[p][q]
      {
        if i != j {
          var val := 0.5 * (a[i, j] + a[j, i]);
          a[i, j] := val;
          a[j, i] := val;
        }
      }
    }
    ghost var r := Symmetrize(m);
    assert forall p, q :: 0 <= p < n && 0 <= q < n ==> Grid(a)[p][q] == r[p][q];
    assert forall p :: 0 <= p < n ==> Grid(a)[p] == r[p];
  }

  // ------------------------------------------------------ get_countryinfo

  /** One country: heading to field. */
  type Entry = map<string, string>

  /** `s[1:]`: drop the first character, if any. */
  function Tail(s: string): string
  {
    if s == [] then [] else s[1..]
  }

  /** `{key: value for key, value in zip(headings, fields)}`: later pairs win. */
  function ZipEntry(headings: seq<string>, fields: seq<string>): Entry
  {
    if headings == [] || fields == [] then map[]
    else map[headings[0] := fields[0]] + ZipEntry(headings[1..], fields[1..])
  }

  /**
   * The zip stops at the shorter list: the keys are the headings that
   * have a field, and each takes the field at its last such position.
   */
  lemma {:induction false} ZipEntryAt(headings: seq<string>, fields: seq<string>, i: nat)
    requires i < |headings| && i < |fields|
    requires forall j :: i < j < |headings| && j < |fields| ==> headings[j] != headings[i]
    ensures headings[i] in ZipEntry(headings, fields)
    ensures ZipEntry(headings, fields)[headings[i]] == fields[i]
  {
    if i > 0 {
      ZipEntryAt(headings[1..], fields[1..], i - 1);
    } else {
      ZipEntryKeys(headings[1..], fields[1..], headings[0]);
    }
  }

  /** A key of the zip is a heading that has a field. */
  lemma {:induction false} ZipEntryKeys(headings: seq<string>, fields: seq<string>, k: string)
    ensures k in ZipEntry(headings, fields) <==>
            exists j :: 0 <= j < |headings| && j < |fields| && headings[j] == k
  {
    if headings != [] && fields != [] {
      ZipEntryKeys(headings[1..], fields[1..], k);
      if exists j :: 0 <= j < |headings| && j < |fields| && headings[j] == k {
        var j :| 0 <= j < |headings| && j < |fields| && headings[j] == k;
        if j > 0 {
          assert headings[1..][j - 1] == k;
        }
      }
      if exists j :: 0 <= j < |headings| - 1 && j < |fields| - 1 && headings[1..][j] == k {
        var j :| 0 <= j < |headings| - 1 && j < |fields| - 1 && headings[1..][j] == k;
        assert headings[j + 1] == k;
      }
    }
  }

  /** A `#ISO` line: its tab-separated tokens, the first without its `#`. */
  function Headings(line: string): (r: seq<string>)
  {
    var tokens := Split(line, '\t');
    [Tail(tokens[0])] + tokens[1..]
  }

  /** A line that carries a country: neither a comment nor blank. */
  predicate IsDataLine(line: string)
  {
    !StartsWith(line, "#") && Strip(line) != []
  }

  /** The headings in force after `lines`: those of the last `#ISO` line, if any. */
  function HeadingsAfter(lines: seq<string>): Option<seq<string>>
  {
    if lines == [] then None
    else if StartsWith(lines[|lines| - 1], "#ISO") then Some(Headings(lines[|lines| - 1]))
    else HeadingsAfter(lines[..|lines| - 1])
  }

  /**
   * The loop of `get_countryinfo` over the lines of the file: a `#ISO`
   * line sets the headings, other `#` lines and blank lines are skipped,
   * and every other line adds the zip of the headings with its fields. A
   * country line before any `#ISO` line finds `headings` unbound, and the
   * function raises.
   */
  function CountryInfo(lines: seq<string>): Result<seq<Entry>>
  {
    if lines == [] then Ok([])
    else
      var line := lines[|lines| - 1];
      match CountryInfo(lines[..|lines| - 1])
      case Err(e) => Err(e)
      case Ok(entries) =>
        if !IsDataLine(line) then Ok(entries)
        else match HeadingsAfter(lines[..|lines| - 1])
          case None => Err("UnboundLocalError: headings")
          case Some(h) => Ok(entries + [ZipEntry(h, Split(line, '\t'))])
  }

  /** Once the loop raises, later lines do not matter. */
  lemma {:induction false} ErrorStops(lines: seq<string>, n: nat)
    requires n <= |lines| && CountryInfo(lines[..n]).Err?
    ensures CountryInfo(lines) == CountryInfo(lines[..n])
    decreases |lines| - n
  {
    if n < |lines| {
      assert lines[..n + 1][..n] == lines[..n];
      ErrorStops(lines, n + 1);
    } else {
      assert lines[..n] == lines;
    }
  }

  /** `get_countryinfo` with the file's lines given: one pass, one entry per country line. */
  method GetCountryInfo(lines: seq<string>) returns (result: Result<seq<Entry>>)
    ensures result == CountryInfo(lines)
  {
    var entries: seq<Entry> := [];
    var headings: Option<seq<string>> := None;
    var n := 0;
    while n < |lines|
      invariant 0 <= n <= |lines|
      invariant CountryInfo(lines[..n]) == Ok(entries)
      invariant headings == HeadingsAfter(lines[..n])
    {
      var line := lines[n];
      assert lines[..n + 1][..n] == lines[..n] && lines[..n + 1][n] == line;
      if StartsWith(line, "#ISO") {
        var tokens := Split(line, '\t');
        tokens := tokens[0 := Tail(tokens[0])];
        assert tokens == Headings(line);
        headings := Some(tokens);
      } else if StartsWith(line, "#") {
      } else if |Strip(line)| == 0 {
      } else {
        if headings.None? {
          assert CountryInfo(lines[..n + 1]) == Err("UnboundLocalError: headings");
          ErrorStops(lines, n + 1);
          return Err("UnboundLocalError: headings");
        }
        var entry := ZipEntry(headings.value, Split(line, '\t'));
        entries := entries + [entry];
      }
      n := n + 1;
    }
    assert lines[..n] == lines;
    result := Ok(entries);
  }

  /** The number of country lines. */
  function DataLines(lines: seq<string>): nat
  {
    if lines == [] then 0
    else DataLines(lines[..|lines| - 1]) + (if IsDataLine(lines[|lines| - 1]) then 1 else 0)
  }

  /**
   * The classification succeeds exactly when every country line comes
   * after some `#ISO` line, and then yields one entry per country line.
   */
  lemma {:induction false} CountryInfoOk(lines: seq<string>)
    ensures CountryInfo(lines).Ok? <==>
            forall k :: 0 <= k < |lines| && IsDataLine(lines[k]) ==> HeadingsAfter(lines[..k]).Some?
    ensures CountryInfo(lines).Ok? ==> |CountryInfo(lines).value| == DataLines(lines)
  {
    if lines != [] {
      var init := lines[..|lines| - 1];
      CountryInfoOk(init);
      forall k | 0 <= k < |init|
        ensures init[..k] == lines[..k] && init[k] == lines[k]
      {
      }
    }
  }

  /**
   * Each country line yields, at the position counted by the country
   * lines before it, the zip of the headings in force with its fields.
   */
  lemma {:induction false} CountryInfoAt(lines: seq<string>, k: nat)
    requires CountryInfo(lines).Ok? && k < |lines| && IsDataLine(lines[k])
    ensures HeadingsAfter(lines[..k]).Some?
    ensures DataLines(lines[..k]) < |CountryInfo(lines).value|
    ensures CountryInfo(lines).value[DataLines(lines[..k])]
            == ZipEntry(HeadingsAfter(lines[..k]).value, Split(lines[k], '\t'))
  {
    var init := lines[..|lines| - 1];
    assert init[..k] == lines[..k];
    if k == |lines| - 1 {
      CountryInfoOk(init);
    } else {
      assert init[k] == lines[k];
      CountryInfoAt(init, k);
    }
  }

  /** A `#ISO` line's headings, joined back with tabs, are the line without its `#`. */
  lemma HeadingsRestoreLine(line: string)
    requires StartsWith(line, "#ISO")
    ensures Join(Headings(line), '\t') == line[1..]
  {
    var tokens := Split(line, '\t');
    SplitJoin(line, '\t');
    assert line[0] == '#';
    var rest := Split(line[1..], '\t');
    assert tokens == [[line[0]] + rest[0]] + rest[1..];
    assert Headings(line) == rest;
    SplitJoin(line[1..], '\t');
  }

  // ------------------------------------------------ get_oag_flight_matrix

  /** The columns of a spreadsheet row the matrix reads: 1 (origin), 3 (destination), 5 (travellers). */
  datatype FlightRow = FlightRow(origin: string, dest: string, travel: real)

  /** `get_alpha_2`: the non-standard codes `R1` and `R2` stand for `RU`. */
  function Alpha2(code: string): string
  {
    if code == "R1" || code == "R2" then "RU" else code
  }

  /** Only `R1` and `R2` are changed, both into `RU`, and a converted code converts to itself. */
  lemma Alpha2Spec(code: string)
    ensures Alpha2(code) != code <==> code == "R1" || code == "R2"
    ensures Alpha2(code) != code ==> Alpha2(code) == "RU"
    ensures Alpha2(Alpha2(code)) == Alpha2(code)
  {
  }

  /** `sheet.col(1)[1:]`: the origin codes below the header row. */
  function Origins(rows: seq<FlightRow>): (r: seq<string>)
    ensures |r| == if rows == [] then 0 else |rows| - 1
    ensures forall k :: 1 <= k < |rows| ==> r[k - 1] == rows[k].origin
  {
    if rows == [] then [] else seq(|rows| - 1, i requires 0 <= i < |rows| - 1 => rows[i + 1].origin)
  }

  /** `map(get_alpha_2, codes)`. */
  function Alpha2s(codes: seq<string>): (r: seq<string>)
    ensures |r| == |codes| && forall i :: 0 <= i < |codes| ==> r[i] == Alpha2(codes[i])
  {
    seq(|codes|, i requires 0 <= i < |codes| => Alpha2(codes[i]))
  }

  /** `unique_alpha_2 = make_unique_list(sorted(map(get_alpha_2, codes)))`. */
  function UniqueAlpha2(codes: seq<string>): seq<string>
  {
    Dedup(Sort(Alpha2s(codes)))
  }

  /** A list with each string strictly above the ones before it. */
  predicate StrictlyAscending(s: seq<string>)
  {
    forall i, j :: 0 <= i < j < |s| ==> Below(s[i], s[j])
  }

  /**
   * `unique_alpha_2` is strictly ascending (so it has no repeats) and
   * holds exactly the alpha-2 codes of the spreadsheet codes.
   */
  lemma UniqueAlpha2Spec(codes: seq<string>)
    ensures StrictlyAscending(UniqueAlpha2(codes)) && Buckets.NoDup(UniqueAlpha2(codes))
    ensures forall x :: x in UniqueAlpha2(codes) <==> exists c :: c in codes && Alpha2(c) == x
  {
    var a := Alpha2s(codes);
    var sorted := Sort(a);
    var u := Dedup(sorted);
    SortSorted(a);
    DedupSpec(sorted);
    forall i, j | 0 <= i < j < |u|
      ensures Below(u[i], u[j])
    {
      var p, q := IndexOf(sorted, u[i]), IndexOf(sorted, u[j]);
      assert !Below(sorted[q], sorted[p]);
      if !Below(u[i], u[j]) {
        BelowTotal(u[i], u[j]);
      }
    }
    forall x
      ensures x in u <==> exists c :: c in codes && Alpha2(c) == x
    {
      assert x in sorted <==> x in multiset(a);
      if x in a {
        var i :| 0 <= i < |a| && a[i] == x;
        assert codes[i] in codes && Alpha2(codes[i]) == x;
      }
      if exists c :: c in codes && Alpha2(c) == x {
        var c :| c in codes && Alpha2(c) == x;
        var i :| 0 <= i < |codes| && codes[i] == c;
        assert a[i] == x;
      }
    }
  }

  /** `i_from_code`: each code's position of its alpha-2 code in `unique`. */
  function IndexFromCode(codes: seq<string>, unique: seq<string>): (r: map<string, nat>)
    requires forall c :: c in codes ==> Alpha2(c) in unique
    ensures r.Keys == set c | c in codes
  {
    map c | c in codes :: IndexOf(unique, Alpha2(c))
  }

  /** `alpha2_from_i`: each code's index back to its alpha-2 code. */
  function Alpha2FromIndex(codes: seq<string>, unique: seq<string>): map<nat, string>
    requires forall c :: c in codes ==> Alpha2(c) in unique
  {
    map c | c in codes :: IndexOf(unique, Alpha2(c)) := Alpha2(c)
  }

  /**
   * Each code's index is the position of its alpha-2 code in the sorted
   * unique list, so two codes share an index exactly when they share an
   * alpha-2 code.
   */
  lemma IndexSpec(codes: seq<string>)
    ensures var u := UniqueAlpha2(codes);
      && (forall c :: c in codes ==> Alpha2(c) in u)
      && (forall c :: c in codes ==> IndexFromCode(codes, u)[c] < |u| && u[IndexFromCode(codes, u)[c]] == Alpha2(c))
      && (forall c, d :: c in codes && d in codes ==>
            (IndexFromCode(codes, u)[c] == IndexFromCode(codes, u)[d] <==> Alpha2(c) == Alpha2(d)))
  {
    UniqueAlpha2Spec(codes);
  }

  /** `alpha2_from_i` maps every position of the unique list, and only those, to the code there. */
  lemma Alpha2FromIndexSpec(codes: seq<string>)
    ensures var u := UniqueAlpha2(codes);
      && (forall c :: c in codes ==> Alpha2(c) in u)
      && (forall i: nat :: i in Alpha2FromIndex(codes, u) <==> i < |u|)
      && (forall i :: 0 <= i < |u| ==> Alpha2FromIndex(codes, u)[i] == u[i])
  {
    var u := UniqueAlpha2(codes);
    UniqueAlpha2Spec(codes);
    var a2 := Alpha2FromIndex(codes, u);
    forall i | 0 <= i < |u|
      ensures i in a2 && a2[i] == u[i]
    {
      assert u[i] in u;
      var c :| c in codes && Alpha2(c) == u[i];
      assert u[..i] == u[..i];
      IndexOfFirst(u, i, u[i]);
    }
  }

  /**
   * The travellers on the route between two alpha-2 codes: column 5
   * summed over the rows among `rows[1..k]` whose origin and destination
   * convert to them.
   */
  function RouteTravel(rows: seq<FlightRow>, o: string, d: string, k: nat): real
    requires k <= |rows|
  {
    if k <= 1 then 0.0
    else
      var row := rows[k - 1];
      RouteTravel(rows, o, d, k - 1) + if Alpha2(row.origin) == o && Alpha2(row.dest) == d then row.travel else 0.0
  }

  /** Every destination below the header is also an origin, so `i_from_code` knows it. */
  predicate DestsKnown(rows: seq<FlightRow>)
  {
    forall k :: 1 <= k < |rows| ==> rows[k].dest in Origins(rows)
  }

  /** The two results of `get_oag_flight_matrix`. */
  datatype Travel = Travel(matrix: array2<real>, alpha2FromIndex: map<nat, string>)

  /** A code's index is `a` exactly when the `a`-th unique code is its alpha-2 code. */
  lemma IndexMatches(codes: seq<string>, c: string, a: nat)
    requires c in codes && a < |UniqueAlpha2(codes)|
    ensures forall c :: c in codes ==> Alpha2(c) in UniqueAlpha2(codes)
    ensures var u := UniqueAlpha2(codes);
      IndexFromCode(codes, u)[c] == a <==> u[a] == Alpha2(c)
  {
    IndexSpec(codes);
    UniqueAlpha2Spec(codes);
  }

  /**
   * `get_oag_flight_matrix` with the spreadsheet rows given: the codes,
   * their indices, a zero matrix, then `+=` of column 5 for every row
   * below the header. A destination that is not among the origins raises
   * `KeyError`. Otherwise cell `(a, b)` holds the travellers from the
   * `a`-th to the `b`-th alpha-2 code of the sorted unique list.
   */
  method OagFlightMatrix(rows: seq<FlightRow>) returns (r: Result<Travel>)
    ensures r.Ok? <==> DestsKnown(rows)
    ensures r.Ok? ==>
      var codes := Dedup(Origins(rows));
      var u := UniqueAlpha2(codes);
      && fresh(r.value.matrix)
      && r.value.matrix.Length0 == |u| && r.value.matrix.Length1 == |u|
      && (forall c :: c in codes ==> Alpha2(c) in u)
      && r.value.alpha2FromIndex == Alpha2FromIndex(codes, u)
      && forall a, b :: 0 <= a < |u| && 0 <= b < |u| ==>
           r.value.matrix[a, b] == RouteTravel(rows, u[a], u[b], |rows|)
  {
    var codes, unique, iFromCode := Indexing(rows);
    var n := |unique|;
    var m := new real[n, n]((i, j) => 0.0);
    var ok := Accumulate(rows, unique, iFromCode, m);
    if !ok {
      return Err("KeyError");
    }
    r := Ok(Travel(m, Alpha2FromIndex(codes, unique)));
  }

  /** The unique codes, their sorted unique alpha-2 codes and `i_from_code`. */
  method Indexing(rows: seq<FlightRow>) returns (codes: seq<string>, unique: seq<string>, iFromCode: map<string, nat>)
    ensures codes == Dedup(Origins(rows)) && unique == UniqueAlpha2(codes)
    ensures forall c :: c in codes ==> Alpha2(c) in unique
    ensures forall k :: 1 <= k < |rows| ==> rows[k].origin in iFromCode
    ensures forall c :: c in iFromCode ==> iFromCode[c] < |unique|
    ensures forall c, a :: c in iFromCode && 0 <= a < |unique| ==> (iFromCode[c] == a <==> unique[a] == Alpha2(c))
    ensures DestsKnown(rows) <==> forall k :: 1 <= k < |rows| ==> rows[k].dest in iFromCode
  {
    codes := MakeUniqueList(Origins(rows));
    unique := MakeUniqueList(Sort(Alpha2s(codes)));
    AccumulateReady(rows);
    iFromCode := IndexFromCode(codes, unique);
  }

  /** What the accumulation loop needs to know about the codes and their indices. */
  lemma AccumulateReady(rows: seq<FlightRow>)
    ensures forall c :: c in Dedup(Origins(rows)) ==> Alpha2(c) in UniqueAlpha2(Dedup(Origins(rows)))
    ensures var codes := Dedup(Origins(rows));
      var u := UniqueAlpha2(codes);
      var idx := IndexFromCode(codes, u);
      && (forall k :: 1 <= k < |rows| ==> rows[k].origin in idx)
      && (forall c :: c in idx ==> idx[c] < |u|)
      && (forall c, a :: c in idx && 0 <= a < |u| ==> (idx[c] == a <==> u[a] == Alpha2(c)))
      && (DestsKnown(rows) <==> forall k :: 1 <= k < |rows| ==> rows[k].dest in idx)
  {
    var origins := Origins(rows);
    var codes := Dedup(origins);
    DedupElements(origins);
    IndexSpec(codes);
    var u := UniqueAlpha2(codes);
    var idx := IndexFromCode(codes, u);
    forall k | 1 <= k < |rows|
      ensures rows[k].origin in idx
      ensures rows[k].dest in idx <==> rows[k].dest in origins
    {
      assert origins[k - 1] == rows[k].origin;
    }
    forall c, a | c in idx && 0 <= a < |u|
      ensures idx[c] == a <==> u[a] == Alpha2(c)
    {
      IndexMatches(codes, c, a);
    }
  }

  /**
   * The loop over the rows below the header, adding column 5 into the
   * cell its codes index; `iFromCode` knows exactly the origins and
   * indexes each code by its alpha-2 code's position in `unique`.
   */
  method Accumulate(rows: seq<FlightRow>, unique: seq<string>, iFromCode: map<string, nat>, m: array2<real>)
    returns (ok: bool)
    requires forall k :: 1 <= k < |rows| ==> rows[k].origin in iFromCode
    requires forall c :: c in iFromCode ==> iFromCode[c] < |unique|
    requires forall c, a :: c in iFromCode && 0 <= a < |unique| ==> (iFromCode[c] == a <==> unique[a] == Alpha2(c))
    requires m.Length0 == |unique| && m.Length1 == |unique|
    requires forall a, b :: 0 <= a < |unique| && 0 <= b < |unique| ==> m[a, b] == 0.0
    modifies m
    ensures ok <==> forall k :: 1 <= k < |rows| ==> rows[k].dest in iFromCode
    ensures ok ==> forall a, b :: 0 <= a < |unique| && 0 <= b < |unique| ==>
                     m[a, b] == RouteTravel(rows, unique[a], unique[b], |rows|)
  {
    var n := |unique|;
    if rows == [] {
      return true;
    }
    for k := 1 to |rows|
      invariant forall j :: 1 <= j < k ==> rows[j].dest in iFromCode
      invariant forall a, b :: 0 <= a < n && 0 <= b < n ==> m[a, b] == RouteTravel(rows, unique[a], unique[b], k)
    {
      if rows[k].dest !in iFromCode {
        return false;
      }
      AddRow(rows, unique, iFromCode, m, k);
    }
    return true;
  }

  /** One pass of the loop: row `k` adds its travel into the cell of its two codes. */
  method AddRow(rows: seq<FlightRow>, unique: seq<string>, iFromCode: map<string, nat>, m: array2<real>, k: nat)
    requires 1 <= k < |rows| && rows[k].origin in iFromCode && rows[k].dest in iFromCode
    requires forall c :: c in iFromCode ==> iFromCode[c] < |unique|
    requires forall c, a :: c in iFromCode && 0 <= a < |unique| ==> (iFromCode[c] == a <==> unique[a] == Alpha2(c))
    requires m.Length0 == |unique| && m.Length1 == |unique|
    requires forall a, b :: 0 <= a < |unique| && 0 <= b < |unique| ==>
               m[a, b] == RouteTravel(rows, unique[a], unique[b], k)
    modifies m
    ensures forall a, b :: 0 <= a < |unique| && 0 <= b < |unique| ==>
              m[a, b] == RouteTravel(rows, unique[a], unique[b], k + 1)
  {
    var row := rows[k];
    var o, d := iFromCode[row.origin], iFromCode[row.dest];
    m[o, d] := m[o, d] + row.travel;
  }
}
