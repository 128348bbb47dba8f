/**
 * The land-neighbour scripts: country names scraped from a table are
 * cleaned, looked up in the country information (`Country` column) with a
 * short list of spelling corrections, and turned into code entries and an
 * adjacency matrix. The scraping itself is not part of this model: its
 * result, one `Neighbours` value per table row, is an input.
 */
module Adjacency {
  import opened Wrappers
  import opened Text
  import DataProc

  /** One country of the country information: heading to field. */
  type Entry = DataProc.Entry

  // --------------------------------------------------------------- clean

  /** `clean`: non-breaking spaces become spaces, then `strip()`. */
  function Clean(s: string): string
  {
    Strip(ReplaceChar(s, '\U{A0}', ' '))
  }

  /** Replacing a character that does not occur changes nothing. */
  lemma ReplaceAbsent(s: string, a: char, b: char)
    requires a !in s
    ensures ReplaceChar(s, a, b) == s
  {
    var r := ReplaceChar(s, a, b);
    assert forall i :: 0 <= i < |s| ==> r[i] == s[i];
  }

  /**
   * A cleaned name holds no non-breaking space, neither starts nor ends
   * with white space, and is empty exactly when the name was all white
   * space.
   */
  lemma CleanSpec(s: string)
    ensures '\U{A0}' !in Clean(s)
    ensures Clean(s) != [] ==> !IsSpace(Clean(s)[0]) && !IsSpace(Clean(s)[|Clean(s)| - 1])
    ensures Clean(s) == [] <==> AllSpace(s)
  {
    var r := ReplaceChar(s, '\U{A0}', ' ');
    StripSlice(r);
    StripEmpty(r);
    assert AllSpace(r) <==> AllSpace(s) by {
      assert forall i :: 0 <= i < |s| ==> (IsSpace(r[i]) <==> IsSpace(s[i]));
    }
  }

  /** Cleaning twice is cleaning once. */
  lemma CleanIdempotent(s: string)
    ensures Clean(Clean(s)) == Clean(s)
  {
    var r := ReplaceChar(s, '\U{A0}', ' ');
    CleanSpec(s);
    ReplaceAbsent(Clean(s), '\U{A0}', ' ');
    StripIdempotent(r);
  }

  // ------------------------------------------------------------ is_match

  /** The entries before `j` all have a `Country`, and none of them is `name`. */
  predicate Passed(info: seq<Entry>, name: string, j: int)
    requires 0 <= j <= |info|
  {
    forall i :: 0 <= i < j ==> "Country" in info[i] && info[i]["Country"] != name
  }

  /**
   * Where the scan of `is_match` stops: at the first entry that lacks a
   * `Country` (reading it raises `KeyError`) or whose `Country` is `name`;
   * `|info|` when there is none.
   */
  function Stop(info: seq<Entry>, name: string): (k: nat)
    ensures k <= |info| && Passed(info, name, k)
    ensures k < |info| ==> "Country" !in info[k] || info[k]["Country"] == name
  {
    if info == [] || "Country" !in info[0] || info[0]["Country"] == name then 0
    else
      var k := Stop(info[1..], name);
      assert forall i :: 1 <= i < 1 + k ==> info[i] == info[1..][i - 1];
      1 + k
  }

  /** The value of `is_match(name)`, or the error it raises. */
  function Match(info: seq<Entry>, name: string): Result<Option<Entry>>
  {
    var k := Stop(info, name);
    if k == |info| then Ok(None)
    else if "Country" !in info[k] then Err("KeyError")
    else Ok(Some(info[k]))
  }

  /**
   * `is_match`: the first entry whose `Country` is `name`, `None` when no
   * entry has it, `KeyError` when an entry without a `Country` comes first.
   */
  method IsMatch(info: seq<Entry>, name: string) returns (r: Result<Option<Entry>>)
    ensures r == Match(info, name)
  {
    for i := 0 to |info|
      invariant Passed(info, name, i)
    {
      var country := info[i];
      if "Country" !in country {
        return Err("KeyError");
      }
      if country["Country"] == name {
        return Ok(Some(country));
      }
    }
    return Ok(None);
  }

  /**
   * A found entry is one with that `Country`; every entry before it has a
   * different one; nothing is found exactly when every entry has a
   * `Country` and none is `name`.
   */
  lemma MatchSpec(info: seq<Entry>, name: string)
    ensures Match(info, name) == Ok(None) <==> Passed(info, name, |info|)
    ensures Match(info, name).Ok? && Match(info, name).value.Some? ==>
              var e := Match(info, name).value.value;
              "Country" in e && e["Country"] == name && e in info
    ensures Match(info, name).Err? <==> exists j :: 0 <= j < |info| && Passed(info, name, j) && "Country" !in info[j]
  {
    var k := Stop(info, name);
    if k < |info| {
      assert info[k] in info;
      assert !Passed(info, name, |info|) by {
        if "Country" in info[k] {
          assert info[k]["Country"] == name;
        }
      }
    }
    if exists j :: 0 <= j < |info| && Passed(info, name, j) && "Country" !in info[j] {
      var j :| 0 <= j < |info| && Passed(info, name, j) && "Country" !in info[j];
      if k > j {
        assert false;
      }
      if k < j {
        assert false;
      }
    }
  }

  // ------------------------------------------------------------ get_code

  /** `corrections`, in the order of its dictionary display. */
  const Corrections: seq<(string, string)> :=
    [("Macedonia", "Macedonia"), ("Czech", "Czechia"), ("C\U{F4}te", "Ivory Coast"),
     ("Cyprus", "Cyprus"), ("Denmark", "Denmark"), ("Netherlands", "Netherlands"),
     ("New Zealand", "New Zealand"), ("Norway", "Norway"), ("Macau", "Macao")]

  /** `country[country_key]`, or the `KeyError` it raises. */
  function Field(country: Entry, key: string): (r: Result<Option<string>>)
    ensures r.Ok? <==> key in country
    ensures r.Ok? ==> r.value == Some(country[key])
  {
    if key in country then Ok(Some(country[key])) else Err("KeyError")
  }

  /** The outcome of one lookup that found something or failed. */
  function Resolve(m: Result<Option<Entry>>, key: string): Result<Option<string>>
    requires m.Err? || m.value.Some?
  {
    if m.Err? then Err(m.error) else Field(m.value.value, key)
  }

  /** A correction applies to `name` when its key occurs in `name` and its target finds something (or fails). */
  predicate Applies(info: seq<Entry>, name: string, c: (string, string))
  {
    Contains(name, c.0) && Match(info, c.1) != Ok(None)
  }

  /** The loop over the corrections in `get_code`. */
  function Corrected(info: seq<Entry>, name: string, key: string, cs: seq<(string, string)>): Result<Option<string>>
  {
    if cs == [] then Ok(None)
    else if Applies(info, name, cs[0]) then Resolve(Match(info, cs[0].1), key)
    else Corrected(info, name, key, cs[1..])
  }

  /** `get_code(name, country_key)`, or the error it raises. */
  function Code(info: seq<Entry>, name: string, key: string): Result<Option<string>>
  {
    var m := Match(info, name);
    if m == Ok(None) then Corrected(info, name, key, Corrections) else Resolve(m, key)
  }

  /** No correction gives a code exactly when none applies. */
  lemma {:induction false} CorrectedNone(info: seq<Entry>, name: string, key: string, cs: seq<(string, string)>)
    ensures Corrected(info, name, key, cs) == Ok(None) <==> forall i :: 0 <= i < |cs| ==> !Applies(info, name, cs[i])
  {
    if cs != [] {
      CorrectedNone(info, name, key, cs[1..]);
      assert forall i :: 1 <= i < |cs| ==> cs[i] == cs[1..][i - 1];
      if Applies(info, name, cs[0]) {
        var m := Match(info, cs[0].1);
        assert m.Err? || m.value.Some?;
      }
    }
  }

  /** The first correction that applies decides the code. */
  lemma {:induction false} CorrectedFirst(info: seq<Entry>, name: string, key: string, cs: seq<(string, string)>, i: nat)
    requires i < |cs| && Applies(info, name, cs[i])
    requires forall j :: 0 <= j < i ==> !Applies(info, name, cs[j])
    ensures Corrected(info, name, key, cs) == Resolve(Match(info, cs[i].1), key)
  {
    if i > 0 {
      assert !Applies(info, name, cs[0]);
      assert forall j :: 0 <= j < i - 1 ==> cs[1..][j] == cs[j + 1];
      CorrectedFirst(info, name, key, cs[1..], i - 1);
    }
  }

  /**
   * An exact match wins over every correction; without one the first
   * correction that applies decides; with neither there is no code.
   */
  lemma CodeOrder(info: seq<Entry>, name: string, key: string)
    ensures Match(info, name).Ok? && Match(info, name).value.Some? ==>
              Code(info, name, key) == Field(Match(info, name).value.value, key)
    ensures (Match(info, name) == Ok(None) && forall i :: 0 <= i < |Corrections| ==> !Applies(info, name, Corrections[i]))
            ==> Code(info, name, key) == Ok(None)
  {
    CorrectedNone(info, name, key, Corrections);
  }

  /**
   * `get_code`: the field of the exact match; otherwise the field of the
   * target of the first correction whose key occurs in the name and whose
   * target matches; otherwise `None`.
   */
  method GetCode(info: seq<Entry>, name: string, key: string) returns (r: Result<Option<string>>)
    ensures r == Code(info, name, key)
  {
    var country := IsMatch(info, name);
    if country != Ok(None) {
      return Resolve(country, key);
    }
    var cs := Corrections;
    for i := 0 to |cs|
      invariant Corrected(info, name, key, cs) == Corrected(info, name, key, cs[i..])
    {
      assert cs[i..][1..] == cs[i + 1..];
      var (k, v) := cs[i];
      if Contains(name, k) {
        country := IsMatch(info, v);
        if country != Ok(None) {
          return Resolve(country, key);
        }
      }
    }
    return Ok(None);
  }

  // ------------------------------------------------- code entries

  /** An entry of `get_country_neighbors`: a country name and its land neighbours' names. */
  datatype Neighbours = Neighbours(country: string, neighbours: seq<string>)

  /** An entry of the filtered `out_data['neighbours']`: codes only. */
  datatype CodeEntry = CodeEntry(country: string, neighbours: seq<string>)

  /** `map(get_code, names)` consumed in order: the codes, or the first error. */
  function Codes(info: seq<Entry>, names: seq<string>, key: string): (r: Result<seq<Option<string>>>)
    ensures r.Ok? <==> forall i :: 0 <= i < |names| ==> Code(info, names[i], key).Ok?
    ensures r.Ok? ==> |r.value| == |names| && forall i :: 0 <= i < |names| ==> r.value[i] == Code(info, names[i], key).value
  {
    if names == [] then Ok([])
    else
      var c := Code(info, names[0], key);
      var rest := Codes(info, names[1..], key);
      assert forall i :: 1 <= i < |names| ==> names[i] == names[1..][i - 1];
      if c.Err? then Err(c.error)
      else if rest.Err? then Err(rest.error)
      else Ok([c.value] + rest.value)
  }

  /** `filter(lambda v: v is not None, ...)`: the present values, in order. */
  function Present(xs: seq<Option<string>>): seq<string>
  {
    if xs == [] then []
    else if xs[0].Some? then [xs[0].value] + Present(xs[1..])
    else Present(xs[1..])
  }

  /** The filter works piece by piece, so it keeps the order of what it keeps. */
  lemma {:induction false} PresentAppend(a: seq<Option<string>>, b: seq<Option<string>>)
    ensures Present(a + b) == Present(a) + Present(b)
  {
    if a != [] {
      assert (a + b)[0] == a[0];
      assert (a + b)[1..] == a[1..] + b;
      PresentAppend(a[1..], b);
    } else {
      assert a + b == b;
    }
  }

  /** Exactly the present values are kept, and no more of them than there were values. */
  lemma {:induction false} PresentSpec(xs: seq<Option<string>>)
    ensures |Present(xs)| <= |xs|
    ensures forall x :: x in Present(xs) <==> Some(x) in xs
  {
    if xs != [] {
      PresentSpec(xs[1..]);
      assert xs == [xs[0]] + xs[1..];
    }
  }

  /** The entry `make_data_js` appends for a country with code `c`, or the error. */
  function Coded(info: seq<Entry>, c: string, e: Neighbours, key: string): Result<CodeEntry>
  {
    var ns := Codes(info, e.neighbours, key);
    if ns.Err? then Err(ns.error) else Ok(CodeEntry(c, Present(ns.value)))
  }

  /**
   * The loop of `make_data_js` (and its copy at the head of `make_csv`):
   * skip a country without a code, otherwise append its code and its
   * neighbours' codes without the missing ones; the first error ends it.
   */
  function Kept(info: seq<Entry>, es: seq<Neighbours>, key: string): Result<seq<CodeEntry>>
  {
    if es == [] then Ok([])
    else
      var done := Kept(info, es[..|es| - 1], key);
      var e := es[|es| - 1];
      var c := Code(info, e.country, key);
      if done.Err? then Err(done.error)
      else if c.Err? then Err(c.error)
      else if c.value.None? then Ok(done.value)
      else
        var out := Coded(info, c.value.value, e, key);
        if out.Err? then Err(out.error) else Ok(done.value + [out.value])
  }

  /** The country has a code. */
  predicate HasCode(info: seq<Entry>, e: Neighbours, key: string)
  {
    Code(info, e.country, key).Ok? && Code(info, e.country, key).value.Some?
  }

  /** The number of countries with a code. */
  function CountCoded(info: seq<Entry>, es: seq<Neighbours>, key: string): nat
  {
    if es == [] then 0
    else CountCoded(info, es[..|es| - 1], key) + if HasCode(info, es[|es| - 1], key) then 1 else 0
  }

  /** Every code the loop asks for is found or missing, without an error. */
  predicate NoErrors(info: seq<Entry>, es: seq<Neighbours>, key: string)
  {
    forall i :: 0 <= i < |es| ==>
      Code(info, es[i].country, key).Ok?
      && (Code(info, es[i].country, key).value.Some? ==> Codes(info, es[i].neighbours, key).Ok?)
  }

  /** The loop succeeds exactly when no lookup it makes fails. */
  lemma {:induction false} KeptOk(info: seq<Entry>, es: seq<Neighbours>, key: string)
    ensures Kept(info, es, key).Ok? <==> NoErrors(info, es, key)
  {
    if es != [] {
      var n := |es| - 1;
      var front := es[..n];
      KeptOk(info, front, key);
      assert forall i :: 0 <= i < n ==> front[i] == es[i];
      assert NoErrors(info, es, key) <==>
        (NoErrors(info, front, key)
         && Code(info, es[n].country, key).Ok?
         && (Code(info, es[n].country, key).value.Some? ==> Codes(info, es[n].neighbours, key).Ok?));
    }
  }

  /** A successful loop keeps one entry per country with a code. */
  lemma {:induction false} KeptLength(info: seq<Entry>, es: seq<Neighbours>, key: string)
    requires Kept(info, es, key).Ok?
    ensures |Kept(info, es, key).value| == CountCoded(info, es, key)
  {
    if es != [] {
      KeptLength(info, es[..|es| - 1], key);
    }
  }

  /**
   * A successful loop keeps the entries in input order: the country at
   * input position `i`, when it has a code, lands right after the coded
   * countries before it.
   */
  lemma {:induction false} KeptAt(info: seq<Entry>, es: seq<Neighbours>, key: string, i: nat)
    requires Kept(info, es, key).Ok? && i < |es| && HasCode(info, es[i], key)
    ensures CountCoded(info, es[..i], key) < |Kept(info, es, key).value|
    ensures Coded(info, Code(info, es[i].country, key).value.value, es[i], key).Ok?
    ensures Kept(info, es, key).value[CountCoded(info, es[..i], key)]
            == Coded(info, Code(info, es[i].country, key).value.value, es[i], key).value
  {
    var n := |es| - 1;
    var front := es[..n];
    KeptOk(info, es, key);
    KeptLength(info, es, key);
    CountCodedPrefix(info, es, i, key);
    KeptLength(info, front, key);
    if i < n {
      assert front[..i] == es[..i];
      assert front[i] == es[i];
      KeptAt(info, front, key, i);
    } else {
      assert es[..i] == front;
    }
  }

  /** Once the loop has failed on a prefix, the rest of the entries do not matter. */
  lemma {:induction false} KeptErrorStops(info: seq<Entry>, es: seq<Neighbours>, key: string, i: nat)
    requires i <= |es| && Kept(info, es[..i], key).Err?
    ensures Kept(info, es, key) == Kept(info, es[..i], key)
    decreases |es| - i
  {
    if i < |es| {
      assert es[..i + 1][..i] == es[..i];
      KeptErrorStops(info, es, key, i + 1);
    } else {
      assert es[..i] == es;
    }
  }

  /** A coded country counts: fewer coded countries come before it than in the whole list. */
  lemma {:induction false} CountCodedPrefix(info: seq<Entry>, es: seq<Neighbours>, i: nat, key: string)
    requires i < |es| && HasCode(info, es[i], key)
    ensures CountCoded(info, es[..i], key) < CountCoded(info, es, key)
  {
    var n := |es| - 1;
    if i < n {
      var front := es[..n];
      assert front[..i] == es[..i];
      assert front[i] == es[i];
      CountCodedPrefix(info, front, i, key);
    }
  }

  /**
   * The entry loop of `make_data_js` (codes under `ISO-Numeric`) and of
   * `make_csv` (codes under `ISO3`), up to writing the file.
   */
  method KeptEntries(info: seq<Entry>, es: seq<Neighbours>, key: string) returns (r: Result<seq<CodeEntry>>)
    ensures r == Kept(info, es, key)
  {
    var out: seq<CodeEntry> := [];
    for i := 0 to |es|
      invariant Kept(info, es[..i], key) == Ok(out)
    {
      assert es[..i + 1][..i] == es[..i];
      var entry := es[i];
      var countryCode := GetCode(info, entry.country, key);
      if countryCode.Err? {
        KeptErrorStops(info, es, key, i + 1);
        return Err(countryCode.error);
      }
      if countryCode.value.None? {
        continue;
      }
      var neighbourCodes := Codes(info, entry.neighbours, key);
      if neighbourCodes.Err? {
        KeptErrorStops(info, es, key, i + 1);
        return Err(neighbourCodes.error);
      }
      out := out + [CodeEntry(countryCode.value.value, Present(neighbourCodes.value))];
    }
    assert es[..|es|] == es;
    return Ok(out);
  }

  // ------------------------------------------------------------ make_csv

  /** One CSV cell: a code or a 0/1 flag. */
  datatype Cell = Label(text: string) | Bit(bit: int)

  /** The position of the first entry for `code`; `|entries|` when there is none. */
  function FirstFor(entries: seq<CodeEntry>, code: string): (k: nat)
    ensures k <= |entries|
    ensures forall i :: 0 <= i < k ==> entries[i].country != code
    ensures k < |entries| ==> entries[k].country == code
  {
    if entries == [] || entries[0].country == code then 0
    else
      var k := FirstFor(entries[1..], code);
      assert forall i :: 1 <= i < 1 + k ==> entries[i] == entries[1..][i - 1];
      1 + k
  }

  /** `neighbour` is listed by the first entry for `code`; false when there is no such entry. */
  predicate Adjacent(entries: seq<CodeEntry>, code: string, neighbour: string)
  {
    var k := FirstFor(entries, code);
    k < |entries| && neighbour in entries[k].neighbours
  }

  /** `row` is the CSV row of `code`: the code, then one flag per listed code. */
  predicate RowFor(entries: seq<CodeEntry>, alpha3: seq<string>, code: string, row: seq<Cell>)
  {
    && |row| == |alpha3| + 1
    && row[0] == Label(code)
    && forall j :: 0 <= j < |alpha3| ==> row[j + 1] == Bit(if Adjacent(entries, code, alpha3[j]) then 1 else 0)
  }

  /** The whole CSV: the heading row, then one row per listed code in list order. */
  predicate CsvFor(entries: seq<CodeEntry>, alpha3: seq<string>, rows: seq<seq<Cell>>)
  {
    && |rows| == |alpha3| + 1
    && |rows[0]| == |alpha3| + 1
    && rows[0][0] == Label("Country")
    && (forall j :: 0 <= j < |alpha3| ==> rows[0][j + 1] == Label(alpha3[j]))
    && forall i :: 0 <= i < |alpha3| ==> RowFor(entries, alpha3, alpha3[i], rows[i + 1])
  }

  /**
   * A flag is set exactly when some entry for the code lists the
   * neighbour and no earlier entry is for the same code; a code without an
   * entry has no neighbours.
   */
  lemma AdjacentSpec(entries: seq<CodeEntry>, code: string, neighbour: string)
    ensures Adjacent(entries, code, neighbour) <==>
              exists k :: 0 <= k < |entries| && entries[k].country == code
                          && (forall i :: 0 <= i < k ==> entries[i].country != code)
                          && neighbour in entries[k].neighbours
    ensures (forall i :: 0 <= i < |entries| ==> entries[i].country != code) ==> !Adjacent(entries, code, neighbour)
  {
    var f := FirstFor(entries, code);
    if exists k :: 0 <= k < |entries| && entries[k].country == code
                   && (forall i :: 0 <= i < k ==> entries[i].country != code)
                   && neighbour in entries[k].neighbours {
      var k :| 0 <= k < |entries| && entries[k].country == code
               && (forall i :: 0 <= i < k ==> entries[i].country != code)
               && neighbour in entries[k].neighbours;
      if f < k {
        assert false;
      }
      if k < f {
        assert false;
      }
    }
  }

  /** One row of `make_csv`: look for the code's entry, flag its neighbours, or fill with zeros. */
  method Row(entries: seq<CodeEntry>, alpha3: seq<string>, code: string) returns (row: seq<Cell>)
    ensures RowFor(entries, alpha3, code, row)
  {
    row := [Label(code)];
    for i := 0 to |entries|
      invariant forall k :: 0 <= k < i ==> entries[k].country != code
    {
      var entry := entries[i];
      if entry.country == code {
        for j := 0 to |alpha3|
          invariant |row| == j + 1 && row[0] == Label(code)
          invariant forall t :: 0 <= t < j ==> row[t + 1] == Bit(if alpha3[t] in entry.neighbours then 1 else 0)
        {
          if alpha3[j] in entry.neighbours {
            row := row + [Bit(1)];
          } else {
            row := row + [Bit(0)];
          }
        }
        assert FirstFor(entries, code) == i;
        return;
      }
    }
    row := row + seq(|alpha3|, _ => Bit(0));
  }

  /** The rows `make_csv` writes, given the code entries and the list of codes. */
  method CsvRows(entries: seq<CodeEntry>, alpha3: seq<string>) returns (rows: seq<seq<Cell>>)
    ensures CsvFor(entries, alpha3, rows)
  {
    var heading := [Label("Country")] + seq(|alpha3|, j requires 0 <= j < |alpha3| => Label(alpha3[j]));
    rows := [heading];
    for i := 0 to |alpha3|
      invariant |rows| == i + 1 && rows[0] == heading
      invariant forall t :: 0 <= t < i ==> RowFor(entries, alpha3, alpha3[t], rows[t + 1])
    {
      var row := Row(entries, alpha3, alpha3[i]);
      rows := rows + [row];
    }
  }

  /**
   * `make_csv` up to writing the files: the code entries under `ISO3`,
   * then the adjacency rows over `alpha3`.
   */
  method MakeCsv(info: seq<Entry>, es: seq<Neighbours>, alpha3: seq<string>) returns (r: Result<seq<seq<Cell>>>)
    ensures r.Ok? <==> Kept(info, es, "ISO3").Ok?
    ensures r.Ok? ==> CsvFor(Kept(info, es, "ISO3").value, alpha3, r.value)
  {
    var entries := KeptEntries(info, es, "ISO3");
    if entries.Err? {
      return Err(entries.error);
    }
    var rows := CsvRows(entries.value, alpha3);
    return Ok(rows);
  }
}

/**
 * The second copy of the neighbour script: the same `clean`, `is_match`
 * and `get_code` (with `ISO-Numeric` fixed), but `make_data_js` keeps
 * every country and every neighbour, `None` codes included.
 */
module AdjacencyNumeric {
  import opened Wrappers
  import opened Adjacency

  /** An entry of the unfiltered `out_data['neighbours']`. */
  datatype RawEntry = RawEntry(country: Option<string>, neighbours: seq<Option<string>>)

  /** `get_code(name)` of this copy. */
  function NumericCode(info: seq<Entry>, name: string): Result<Option<string>>
  {
    Code(info, name, "ISO-Numeric")
  }

  /** The loop of this `make_data_js`: one entry per country, or the first error. */
  function RawEntries(info: seq<Entry>, es: seq<Neighbours>): Result<seq<RawEntry>>
  {
    if es == [] then Ok([])
    else
      var done := RawEntries(info, es[..|es| - 1]);
      var e := es[|es| - 1];
      var c := NumericCode(info, e.country);
      var ns := Codes(info, e.neighbours, "ISO-Numeric");
      if done.Err? then Err(done.error)
      else if c.Err? then Err(c.error)
      else if ns.Err? then Err(ns.error)
      else Ok(done.value + [RawEntry(c.value, ns.value)])
  }

  /** Every lookup of the loop succeeds. */
  predicate RawNoErrors(info: seq<Entry>, es: seq<Neighbours>)
  {
    forall i :: 0 <= i < |es| ==>
      NumericCode(info, es[i].country).Ok? && Codes(info, es[i].neighbours, "ISO-Numeric").Ok?
  }

  /** The loop succeeds exactly when every lookup does, and then keeps every country. */
  lemma {:induction false} RawOk(info: seq<Entry>, es: seq<Neighbours>)
    ensures RawEntries(info, es).Ok? <==> RawNoErrors(info, es)
    ensures RawEntries(info, es).Ok? ==> |RawEntries(info, es).value| == |es|
  {
    if es != [] {
      var n := |es| - 1;
      var front := es[..n];
      assert RawEntries(info, front).Ok? <==> RawNoErrors(info, front) by {
        RawOk(info, front);
      }
      assert RawEntries(info, front).Ok? ==> |RawEntries(info, front).value| == n by {
        RawOk(info, front);
      }
      assert RawNoErrors(info, es) <==>
        (RawNoErrors(info, front)
         && NumericCode(info, es[n].country).Ok? && Codes(info, es[n].neighbours, "ISO-Numeric").Ok?) by {
        assert forall i :: 0 <= i < n ==> front[i] == es[i];
      }
    }
  }

  /**
   * The country at input position `i` keeps its place, with its code (or
   * `None`) and one code (or `None`) per neighbour, in order.
   */
  lemma {:induction false} RawAt(info: seq<Entry>, es: seq<Neighbours>, i: nat)
    requires RawEntries(info, es).Ok? && i < |es|
    ensures RawNoErrors(info, es) && |RawEntries(info, es).value| == |es|
    ensures var r := RawEntries(info, es).value[i];
            && r.country == NumericCode(info, es[i].country).value
            && |r.neighbours| == |es[i].neighbours|
            && forall j :: 0 <= j < |es[i].neighbours| ==>
                 r.neighbours[j] == NumericCode(info, es[i].neighbours[j]).value
  {
    var n := |es| - 1;
    var front := es[..n];
    RawOk(info, es);
    RawOk(info, front);
    if i < n {
      assert front[i] == es[i];
      RawAt(info, front, i);
    }
  }

  /** Once the loop has failed on a prefix, the rest of the entries do not matter. */
  lemma {:induction false} RawErrorStops(info: seq<Entry>, es: seq<Neighbours>, i: nat)
    requires i <= |es| && RawEntries(info, es[..i]).Err?
    ensures RawEntries(info, es) == RawEntries(info, es[..i])
    decreases |es| - i
  {
    if i < |es| {
      assert es[..i + 1][..i] == es[..i];
      RawErrorStops(info, es, i + 1);
    } else {
      assert es[..i] == es;
    }
  }

  /** `make_data_js` of this copy, up to writing the file. */
  method MakeDataJs(info: seq<Entry>, es: seq<Neighbours>) returns (r: Result<seq<RawEntry>>)
    ensures r == RawEntries(info, es)
  {
    var out: seq<RawEntry> := [];
    for i := 0 to |es|
      invariant RawEntries(info, es[..i]) == Ok(out)
    {
      assert es[..i + 1][..i] == es[..i];
      var entry := es[i];
      var country := GetCode(info, entry.country, "ISO-Numeric");
      var neighbours := Codes(info, entry.neighbours, "ISO-Numeric");
      if country.Err? || neighbours.Err? {
        RawErrorStops(info, es, i + 1);
        return if country.Err? then Err(country.error) else Err(neighbours.error);
      }
      out := out + [RawEntry(country.value, neighbours.value)];
    }
    assert es[..|es|] == es;
    return Ok(out);
  }
}
