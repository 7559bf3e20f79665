/**
 * The queries of accounting.py over the table the accounting portal
 * returns: a list of columns, each a JSON object with an "id" entry
 * (a site, or one of the special ids "xlegend", "ylegend", "Total",
 * "Percent" and "var") whose other entries map VO names or positions to
 * values.
 *
 * Fetching the table is left to the outside: the `Accounting` object is
 * given the table a fetch would return.
 */
module Accounting {
  import opened Wrappers

  /** `ACCOUNTING_DAYS`: how far back the fetched table reaches. */
  const AccountingDays: nat := 90

  /** The JSON values a cell of the table can hold. */
  datatype Json = Null | Bool(b: bool) | Num(x: real) | Str(s: string)

  /** A column: the entries of a JSON object in their order. */
  type Column = seq<(string, Json)>

  type Table = seq<Column>

  /** The exceptions the queries can raise. */
  datatype Error =
    | MissingId   // KeyError: a column without "id"
    | NotAFloat   // ValueError: `float()` of a string that is not a number
    | NoVoLegend  // TypeError: iterating over `None` when there is no "ylegend" column

  datatype Scan<T> = Done(value: T) | Raised(error: Error)

  /** `col[key]`, or nothing when the key is absent; the first entry wins. */
  function Get(col: Column, key: string): Option<Json>
    decreases |col|
  {
    if col == [] then None
    else if col[0].0 == key then Some(col[0].1)
    else Get(col[1..], key)
  }

  /** The lookup finds the key exactly when some entry has it, and answers the value of the first such entry. */
  lemma {:induction false} GetSpec(col: Column, key: string)
    ensures Get(col, key).Some? <==> exists i :: 0 <= i < |col| && col[i].0 == key
    ensures Get(col, key).Some? ==>
      exists i :: 0 <= i < |col| && col[i] == (key, Get(col, key).value) && forall k :: 0 <= k < i ==> col[k].0 != key
    decreases |col|
  {
    if col != [] && col[0].0 != key {
      GetSpec(col[1..], key);
      assert forall i :: 0 < i < |col| ==> col[i] == col[1..][i - 1];
      if Get(col, key).Some? {
        var i :| 0 <= i < |col[1..]| && col[1..][i] == (key, Get(col, key).value) && forall k :: 0 <= k < i ==> col[1..][k].0 != key;
        assert col[i + 1] == (key, Get(col, key).value);
      }
    }
  }

  function IdOf(col: Column): Option<Json>
  {
    Get(col, "id")
  }

  // ---------------------------------------------------------------------
  // The first column with a given id

  /** Column `j` is the first with id `id`, and every column before it has an id. */
  predicate FirstWithId(table: Table, id: Json, j: int)
  {
    && 0 <= j < |table|
    && IdOf(table[j]) == Some(id)
    && forall k :: 0 <= k < j ==> IdOf(table[k]).Some? && IdOf(table[k]) != Some(id)
  }

  /** Every column has an id, and none is `id`. */
  predicate NoneWithId(table: Table, id: Json)
  {
    forall k :: 0 <= k < |table| ==> IdOf(table[k]).Some? && IdOf(table[k]) != Some(id)
  }

  /** A column without an id comes before any column with id `id`. */
  predicate MissingIdBefore(table: Table, id: Json)
  {
    exists j :: 0 <= j < |table| && IdOf(table[j]).None? && forall k :: 0 <= k < j ==> IdOf(table[k]) != Some(id)
  }

  /** `for col in self._data: if col["id"] == id: ...`: the column the loop stops at. */
  function Find(table: Table, id: Json): Scan<Option<Column>>
    decreases |table|
  {
    if table == [] then Done(None)
    else match IdOf(table[0])
      case None => Raised(MissingId)
      case Some(x) => if x == id then Done(Some(table[0])) else Find(table[1..], id)
  }

  /** The scan stops at the first column with the id. */
  lemma {:induction false} FindFirst(table: Table, id: Json, j: int)
    requires FirstWithId(table, id, j)
    ensures Find(table, id) == Done(Some(table[j]))
    decreases j
  {
    if j > 0 {
      var rest := table[1..];
      assert FirstWithId(rest, id, j - 1) by {
        assert forall k :: 0 <= k < j - 1 ==> rest[k] == table[k + 1];
      }
      FindFirst(rest, id, j - 1);
    }
  }

  /** The scan finds no column exactly when every column has another id. */
  lemma {:induction false} FindNone(table: Table, id: Json)
    ensures Find(table, id) == Done(None) <==> NoneWithId(table, id)
    decreases |table|
  {
    if table != [] {
      var rest := table[1..];
      FindNone(rest, id);
      assert forall k :: 0 < k < |table| ==> table[k] == rest[k - 1];
      if IdOf(table[0]).None? || IdOf(table[0]) == Some(id) {
        assert !NoneWithId(table, id);
      }
    }
  }

  /** The scan raises, with a `KeyError`, exactly when a column without an id comes first. */
  lemma {:induction false} FindRaises(table: Table, id: Json)
    ensures Find(table, id).Raised? <==> MissingIdBefore(table, id)
    ensures Find(table, id).Raised? ==> Find(table, id).error == MissingId
    decreases |table|
  {
    if table != [] {
      var rest := table[1..];
      FindRaises(rest, id);
      if IdOf(table[0]).Some? && IdOf(table[0]) != Some(id) {
        MissingIdAfterFirst(table, id);
      }
    }
  }

  /** Past a column whose id is not `id`, a missing id still comes first in the rest. */
  lemma MissingIdAfterFirst(table: Table, id: Json)
    requires table != [] && IdOf(table[0]).Some? && IdOf(table[0]) != Some(id)
    ensures MissingIdBefore(table, id) <==> MissingIdBefore(table[1..], id)
  {
    var rest := table[1..];
    if MissingIdBefore(rest, id) {
      var j :| 0 <= j < |rest| && IdOf(rest[j]).None? && forall k :: 0 <= k < j ==> IdOf(rest[k]) != Some(id);
      assert forall k :: 0 < k < j + 1 ==> table[k] == rest[k - 1];
      assert IdOf(table[j + 1]).None?;
    }
    if MissingIdBefore(table, id) {
      var j :| 0 <= j < |table| && IdOf(table[j]).None? && forall k :: 0 <= k < j ==> IdOf(table[k]) != Some(id);
      assert j > 0;
      assert forall k :: 0 <= k < j - 1 ==> rest[k] == table[k + 1];
      assert IdOf(rest[j - 1]).None?;
    }
  }

  /** A column the scan finds is the first with the id. */
  lemma {:induction false} FindFound(table: Table, id: Json)
    ensures Find(table, id).Done? && Find(table, id).value.Some? ==>
      exists j :: FirstWithId(table, id, j) && Find(table, id).value.value == table[j]
    decreases |table|
  {
    if table != [] && IdOf(table[0]).Some? {
      var rest := table[1..];
      if IdOf(table[0]) == Some(id) {
        assert FirstWithId(table, id, 0);
      } else {
        FindFound(rest, id);
        if Find(rest, id).Done? && Find(rest, id).value.Some? {
          var j :| FirstWithId(rest, id, j) && Find(rest, id).value.value == rest[j];
          assert forall k :: 0 < k < j + 1 ==> table[k] == rest[k - 1];
          assert FirstWithId(table, id, j + 1);
        }
      }
    }
  }

  /**
   * The scan finds the first column with the id; it finds none exactly
   * when every column has another id; it raises exactly when a column
   * without an id comes first.
   */
  lemma FindSpec(table: Table, id: Json)
    ensures Find(table, id) == Done(None) <==> NoneWithId(table, id)
    ensures Find(table, id).Raised? <==> MissingIdBefore(table, id)
    ensures Find(table, id).Raised? ==> Find(table, id).error == MissingId
    ensures forall j :: FirstWithId(table, id, j) ==> Find(table, id) == Done(Some(table[j]))
    ensures Find(table, id).Done? && Find(table, id).value.Some? ==>
      exists j :: FirstWithId(table, id, j) && Find(table, id).value.value == table[j]
  {
    FindNone(table, id);
    FindRaises(table, id);
    FindFound(table, id);
    forall j | FirstWithId(table, id, j) ensures Find(table, id) == Done(Some(table[j])) {
      FindFirst(table, id, j);
    }
  }

  // ---------------------------------------------------------------------
  // site_vos

  predicate IsNumber(v: Json)
  {
    v.Bool? || v.Num?
  }

  /** `v != 0` for a number; `False` equals 0 in Python. */
  predicate NonZero(v: Json)
  {
    (v.Bool? && v.b) || (v.Num? && v.x != 0.0)
  }

  /** The keys of a site column whose value is a non-zero number, other than "Total" and "Percent". */
  function NonZeroVos(col: Column): set<string>
  {
    set i | 0 <= i < |col| && IsNumber(col[i].1) && NonZero(col[i].1) && col[i].0 !in ["Total", "Percent"] :: col[i].0
  }

  /** `site_vos` over a loaded table. */
  function SiteVosOf(table: Table, site: string): Scan<set<string>>
  {
    match Find(table, Str(site))
    case Raised(e) => Raised(e)
    case Done(None) => Done({})
    case Done(Some(col)) => Done(NonZeroVos(col))
  }

  /**
   * The VOs of a site are read from the first column with that id: exactly
   * its keys with a non-zero numeric value, never "Total" or "Percent";
   * when no column has the id, there are none.
   */
  lemma SiteVosSpec(table: Table, site: string)
    ensures NoneWithId(table, Str(site)) ==> SiteVosOf(table, site) == Done({})
    ensures forall j :: FirstWithId(table, Str(site), j) ==>
      && SiteVosOf(table, site).Done?
      && forall vo :: vo in SiteVosOf(table, site).value <==>
           vo != "Total" && vo != "Percent" &&
           exists i :: 0 <= i < |table[j]| && table[j][i].0 == vo && IsNumber(table[j][i].1) && NonZero(table[j][i].1)
    ensures SiteVosOf(table, site).Raised? <==> MissingIdBefore(table, Str(site))
  {
    FindSpec(table, Str(site));
    forall j | FirstWithId(table, Str(site), j)
      ensures forall vo :: vo in NonZeroVos(table[j]) <==>
           vo != "Total" && vo != "Percent" &&
           exists i :: 0 <= i < |table[j]| && table[j][i].0 == vo && IsNumber(table[j][i].1) && NonZero(table[j][i].1)
    {
      var col := table[j];
      forall vo | vo != "Total" && vo != "Percent" &&
           exists i :: 0 <= i < |col| && col[i].0 == vo && IsNumber(col[i].1) && NonZero(col[i].1)
        ensures vo in NonZeroVos(col)
      {
        var i :| 0 <= i < |col| && col[i].0 == vo && IsNumber(col[i].1) && NonZero(col[i].1);
        assert col[i].0 !in ["Total", "Percent"];
      }
    }
  }

  // ---------------------------------------------------------------------
  // all_sites and all_vos

  /** The values of a column, in order, leaving out the entries whose key is `key`. */
  function ValuesExceptKey(col: Column, key: string): (r: seq<Json>)
    ensures |r| <= |col|
    decreases |col|
  {
    if col == [] then []
    else (if col[0].0 == key then [] else [col[0].1]) + ValuesExceptKey(col[1..], key)
  }

  /** The values of a column, in order, leaving out the values "ylegend" and "id". */
  function LegendValues(col: Column): (r: seq<Json>)
    ensures |r| <= |col|
    decreases |col|
  {
    if col == [] then []
    else (if col[0].1 in [Str("ylegend"), Str("id")] then [] else [col[0].1]) + LegendValues(col[1..])
  }

  /** A value is kept exactly when some entry with another key holds it. */
  lemma {:induction false} ValuesExceptKeySpec(col: Column, key: string)
    ensures forall v :: v in ValuesExceptKey(col, key) <==> exists i :: 0 <= i < |col| && col[i].0 != key && col[i].1 == v
    ensures (forall i :: 0 <= i < |col| ==> col[i].0 != key) ==> |ValuesExceptKey(col, key)| == |col|
    decreases |col|
  {
    if col != [] {
      ValuesExceptKeySpec(col[1..], key);
      assert forall i :: 0 < i < |col| ==> col[i] == col[1..][i - 1];
      forall v | exists i :: 0 <= i < |col| && col[i].0 != key && col[i].1 == v
        ensures v in ValuesExceptKey(col, key)
      {
        var i :| 0 <= i < |col| && col[i].0 != key && col[i].1 == v;
        if i > 0 {
          assert col[1..][i - 1].0 != key && col[1..][i - 1].1 == v;
        }
      }
    }
  }

  /** A value is kept exactly when some entry holds it and it is neither "ylegend" nor "id". */
  lemma {:induction false} LegendValuesSpec(col: Column)
    ensures forall v :: v in LegendValues(col) <==>
      v != Str("ylegend") && v != Str("id") && exists i :: 0 <= i < |col| && col[i].1 == v
    decreases |col|
  {
    if col != [] {
      LegendValuesSpec(col[1..]);
      assert forall i :: 0 < i < |col| ==> col[i] == col[1..][i - 1];
      forall v | v != Str("ylegend") && v != Str("id") && exists i :: 0 <= i < |col| && col[i].1 == v
        ensures v in LegendValues(col)
      {
        var i :| 0 <= i < |col| && col[i].1 == v;
        if i > 0 {
          assert col[1..][i - 1].1 == v;
        }
      }
    }
  }

  /**
   * Filtering by key commutes with splitting a column: the values of
   * `a + b` are those of `a` followed by those of `b`.
   */
  lemma {:induction false} ValuesExceptKeyConcat(a: Column, b: Column, key: string)
    ensures ValuesExceptKey(a + b, key) == ValuesExceptKey(a, key) + ValuesExceptKey(b, key)
    decreases |a|
  {
    if a == [] {
      assert a + b == b;
    } else {
      var h := if a[0].0 == key then [] else [a[0].1];
      assert (a + b)[0] == a[0];
      assert (a + b)[1..] == a[1..] + b;
      assert ValuesExceptKey(a + b, key) == h + ValuesExceptKey(a[1..] + b, key);
      assert ValuesExceptKey(a, key) == h + ValuesExceptKey(a[1..], key);
      ValuesExceptKeyConcat(a[1..], b, key);
    }
  }

  /** One entry gives its value once, or nothing when its key is `key`. */
  lemma ValuesExceptKeyOne(e: (string, Json), key: string)
    ensures ValuesExceptKey([e], key) == (if e.0 == key then [] else [e.1])
  {
    assert [e][1..] == [];
  }

  /** The legend values of `a + b` are those of `a` followed by those of `b`. */
  lemma {:induction false} LegendValuesConcat(a: Column, b: Column)
    ensures LegendValues(a + b) == LegendValues(a) + LegendValues(b)
    decreases |a|
  {
    if a == [] {
      assert a + b == b;
    } else {
      var h := if a[0].1 in [Str("ylegend"), Str("id")] then [] else [a[0].1];
      assert (a + b)[0] == a[0];
      assert (a + b)[1..] == a[1..] + b;
      assert LegendValues(a + b) == h + LegendValues(a[1..] + b);
      assert LegendValues(a) == h + LegendValues(a[1..]);
      LegendValuesConcat(a[1..], b);
    }
  }

  /** One entry gives its value once, unless the value is "ylegend" or "id". */
  lemma LegendValuesOne(e: (string, Json))
    ensures LegendValues([e]) == (if e.1 == Str("ylegend") || e.1 == Str("id") then [] else [e.1])
  {
    assert [e][1..] == [];
  }

  /** `all_sites` over a loaded table. */
  function AllSitesOf(table: Table): Scan<seq<Json>>
  {
    match Find(table, Str("xlegend"))
    case Raised(e) => Raised(e)
    case Done(None) => Done([])
    case Done(Some(col)) => Done(ValuesExceptKey(col, "id"))
  }

  /** `all_vos` over a loaded table: nothing (`None`) when there is no "ylegend" column. */
  function AllVosOf(table: Table): Scan<Option<seq<Json>>>
  {
    match Find(table, Str("ylegend"))
    case Raised(e) => Raised(e)
    case Done(None) => Done(None)
    case Done(Some(col)) => Done(Some(LegendValues(col)))
  }

  /**
   * The sites are the values of the first "xlegend" column other than its
   * "id" entry, in column order (`ValuesExceptKeyConcat`, `ValuesExceptKeyOne`), or none when
   * there is no such column.
   */
  lemma AllSitesSpec(table: Table)
    ensures NoneWithId(table, Str("xlegend")) ==> AllSitesOf(table) == Done([])
    ensures forall j :: FirstWithId(table, Str("xlegend"), j) ==>
      && AllSitesOf(table) == Done(ValuesExceptKey(table[j], "id"))
      && |AllSitesOf(table).value| <= |table[j]|
      && forall v :: v in AllSitesOf(table).value <==> exists i :: 0 <= i < |table[j]| && table[j][i].0 != "id" && table[j][i].1 == v
    ensures AllSitesOf(table).Raised? <==> MissingIdBefore(table, Str("xlegend"))
  {
    FindSpec(table, Str("xlegend"));
    forall j | FirstWithId(table, Str("xlegend"), j) {
      ValuesExceptKeySpec(table[j], "id");
    }
  }

  /**
   * The VOs are the values of the first "ylegend" column other than
   * "ylegend" and "id", in column order (`LegendValuesConcat`,
   * `LegendValuesOne`); with no
   * such column the answer is `None`.
   */
  lemma AllVosSpec(table: Table)
    ensures AllVosOf(table) == Done(None) <==> NoneWithId(table, Str("ylegend"))
    ensures forall j :: FirstWithId(table, Str("ylegend"), j) ==>
      && AllVosOf(table) == Done(Some(LegendValues(table[j])))
      && forall v :: v in AllVosOf(table).value.value <==>
           v != Str("ylegend") && v != Str("id") && exists i :: 0 <= i < |table[j]| && table[j][i].1 == v
    ensures AllVosOf(table).Raised? <==> MissingIdBefore(table, Str("ylegend"))
  {
    FindSpec(table, Str("ylegend"));
    forall j | FirstWithId(table, Str("ylegend"), j) {
      LegendValuesSpec(table[j]);
    }
  }

  // ---------------------------------------------------------------------
  // accounting_all_vos

  /** The ids of the columns that are not sites. */
  predicate Excluded(id: Json)
  {
    id in [Str("Total"), Str("Percent"), Str("var"), Str("xlegend"), Str("ylegend")]
  }

  /** `i[vo]` when `vo in i`: only a string can be a key of a JSON object. */
  function Cell(col: Column, vo: Json): Option<Json>
  {
    if vo.Str? then Get(col, vo.s) else None
  }

  /** `float(v)` for a value other than `None`; `parse` is `float` on strings. */
  function ToFloat(v: Json, parse: string -> Option<real>): Option<real>
  {
    match v
    case Num(x) => Some(x)
    case Bool(b) => Some(if b then 1.0 else 0.0)
    case Str(s) => parse(s)
    case Null => None
  }

  /** The column is a site with usage `f > 0` for the VO. */
  predicate Qualifies(col: Column, vo: Json, parse: string -> Option<real>, f: real)
  {
    && IdOf(col).Some? && !Excluded(IdOf(col).value)
    && Cell(col, vo).Some? && Cell(col, vo).value != Null
    && ToFloat(Cell(col, vo).value, parse) == Some(f) && f > 0.0
  }

  /** Testing the column for the VO raises. */
  predicate Fails(col: Column, vo: Json, parse: string -> Option<real>)
  {
    || IdOf(col).None?
    || (&& !Excluded(IdOf(col).value)
        && Cell(col, vo).Some? && Cell(col, vo).value != Null
        && ToFloat(Cell(col, vo).value, parse).None?)
  }

  /** The inner loop of `accounting_all_vos`: the sites with usage for one VO. */
  function VoSites(table: Table, vo: Json, parse: string -> Option<real>, sites: map<Json, real>): Scan<map<Json, real>>
    decreases |table|
  {
    if table == [] then Done(sites)
    else
      var col := table[0];
      if IdOf(col).None? then Raised(MissingId)
      else if Excluded(IdOf(col).value) || Cell(col, vo).None? || Cell(col, vo).value == Null then
        VoSites(table[1..], vo, parse, sites)
      else match ToFloat(Cell(col, vo).value, parse)
        case None => Raised(NotAFloat)
        case Some(f) => VoSites(table[1..], vo, parse, if f > 0.0 then sites[IdOf(col).value := f] else sites)
  }

  /**
   * The inner loop raises exactly when some column fails; otherwise it
   * records every site with positive usage for the VO, and every entry
   * it adds is such a site with that usage.
   */
  lemma {:induction false} VoSitesSpec(table: Table, vo: Json, parse: string -> Option<real>, sites: map<Json, real>)
    ensures var r := VoSites(table, vo, parse, sites);
      && (r.Raised? <==> exists j :: 0 <= j < |table| && Fails(table[j], vo, parse))
      && (r.Raised? ==> r.error != NoVoLegend)
      && (r.Done? ==> forall id :: id in r.value ==>
            (id in sites && r.value[id] == sites[id]) ||
            exists j :: 0 <= j < |table| && IdOf(table[j]) == Some(id) && Qualifies(table[j], vo, parse, r.value[id]))
      && (r.Done? ==> forall j, f :: 0 <= j < |table| && Qualifies(table[j], vo, parse, f) ==> IdOf(table[j]).value in r.value)
      && (r.Done? ==> forall id :: id in sites ==> id in r.value)
    decreases |table|
  {
    if table != [] {
      var col := table[0];
      var rest := table[1..];
      assert forall j :: 0 < j < |table| ==> table[j] == rest[j - 1];
      if IdOf(col).None? || (Fails(col, vo, parse)) {
        assert Fails(table[0], vo, parse);
      } else {
        var next := if Excluded(IdOf(col).value) || Cell(col, vo).None? || Cell(col, vo).value == Null then sites
          else if ToFloat(Cell(col, vo).value, parse).value > 0.0 then sites[IdOf(col).value := ToFloat(Cell(col, vo).value, parse).value]
          else sites;
        assert VoSites(table, vo, parse, sites) == VoSites(rest, vo, parse, next);
        VoSitesSpec(rest, vo, parse, next);
        var r := VoSites(rest, vo, parse, next);
        if exists j :: 0 <= j < |table| && Fails(table[j], vo, parse) {
          var j :| 0 <= j < |table| && Fails(table[j], vo, parse);
          assert j > 0 && Fails(rest[j - 1], vo, parse);
        }
        if r.Done? {
          forall id | id in r.value
            ensures (id in sites && r.value[id] == sites[id]) ||
              exists j :: 0 <= j < |table| && IdOf(table[j]) == Some(id) && Qualifies(table[j], vo, parse, r.value[id])
          {
            if !(id in next && r.value[id] == next[id]) {
              var j :| 0 <= j < |rest| && IdOf(rest[j]) == Some(id) && Qualifies(rest[j], vo, parse, r.value[id]);
              assert table[j + 1] == rest[j];
            } else if !(id in sites && next[id] == sites[id]) {
              assert IdOf(table[0]) == Some(id) && Qualifies(table[0], vo, parse, r.value[id]);
            }
          }
          forall j, f | 0 <= j < |table| && Qualifies(table[j], vo, parse, f) ensures IdOf(table[j]).value in r.value {
            if j > 0 {
              assert Qualifies(rest[j - 1], vo, parse, f);
            }
          }
        }
      }
    }
  }

  /** A VO is kept with its sites when it has some, and dropped otherwise. */
  function Keep(active: map<Json, map<Json, real>>, vo: Json, sites: map<Json, real>): map<Json, map<Json, real>>
  {
    if sites == map[] then active - {vo} else active[vo := sites]
  }

  /** The outer loop of `accounting_all_vos`, over the remaining VOs. */
  function ActiveVos(table: Table, vos: seq<Json>, parse: string -> Option<real>, active: map<Json, map<Json, real>>)
    : Scan<map<Json, map<Json, real>>>
    decreases |vos|
  {
    if vos == [] then Done(active)
    else match VoSites(table, vos[0], parse, map[])
      case Raised(e) => Raised(e)
      case Done(sites) =>
        ActiveVos(table, vos[1..], parse, Keep(active, vos[0], sites))
  }

  /** One VO of the outer loop. */
  lemma ActiveVosStep(table: Table, vos: seq<Json>, parse: string -> Option<real>, active: map<Json, map<Json, real>>)
    requires vos != []
    ensures var sites := VoSites(table, vos[0], parse, map[]);
      && (sites.Raised? ==> ActiveVos(table, vos, parse, active) == Raised(sites.error))
      && (sites.Done? ==> ActiveVos(table, vos, parse, active) == ActiveVos(table, vos[1..], parse, Keep(active, vos[0], sites.value)))
  {}

  /**
   * The outer loop raises exactly when the inner loop raises for some VO;
   * otherwise each VO of the list is kept, with its sites, exactly when it
   * has some, and no VO is kept with an empty site map.
   */
  lemma {:induction false} ActiveVosSpec(table: Table, vos: seq<Json>, parse: string -> Option<real>,
                                         active: map<Json, map<Json, real>>)
    requires forall vo :: vo in active ==> active[vo] != map[]
    ensures var r := ActiveVos(table, vos, parse, active);
      && (r.Raised? <==> exists i :: 0 <= i < |vos| && VoSites(table, vos[i], parse, map[]).Raised?)
      && (r.Raised? ==> r.error != NoVoLegend)
      && (r.Done? ==> forall vo :: vo in r.value ==> r.value[vo] != map[])
      && (r.Done? ==> forall vo :: vo in vos ==>
            && VoSites(table, vo, parse, map[]).Done?
            && (vo in r.value <==> VoSites(table, vo, parse, map[]).value != map[])
            && (vo in r.value ==> r.value[vo] == VoSites(table, vo, parse, map[]).value))
      && (r.Done? ==> forall vo :: vo in r.value && vo !in vos ==> vo in active && r.value[vo] == active[vo])
      && (r.Done? ==> forall vo :: vo in active && vo !in vos ==> vo in r.value)
    decreases |vos|
  {
    if vos != [] {
      var rest := vos[1..];
      assert forall i :: 0 < i < |vos| ==> vos[i] == rest[i - 1];
      assert forall vo :: vo in vos <==> vo == vos[0] || vo in rest;
      match VoSites(table, vos[0], parse, map[])
      case Raised(e) =>
        VoSitesSpec(table, vos[0], parse, map[]);
      case Done(sites) =>
        var next := Keep(active, vos[0], sites);
        ActiveVosSpec(table, rest, parse, next);
        if exists i :: 0 <= i < |vos| && VoSites(table, vos[i], parse, map[]).Raised? {
          var i :| 0 <= i < |vos| && VoSites(table, vos[i], parse, map[]).Raised?;
          assert VoSites(table, rest[i - 1], parse, map[]).Raised?;
        }
    }
  }

  /** `accounting_all_vos` over a loaded table. */
  function AccountingAllVosOf(table: Table, parse: string -> Option<real>): Scan<map<Json, map<Json, real>>>
  {
    match AllVosOf(table)
    case Raised(e) => Raised(e)
    case Done(None) => Raised(NoVoLegend)
    case Done(Some(vos)) => ActiveVos(table, vos, parse, map[])
  }

  /**
   * Every VO in the answer is one of the legend's VOs, with a non-empty
   * map of sites, each a site column with that positive usage; every site
   * column with positive usage for a legend VO is in the answer. Without
   * a "ylegend" column the call raises.
   */
  lemma AccountingAllVosSpec(table: Table, parse: string -> Option<real>)
    ensures AccountingAllVosOf(table, parse) == Raised(NoVoLegend) <==> NoneWithId(table, Str("ylegend"))
    ensures var r := AccountingAllVosOf(table, parse);
      r.Done? ==>
        && AllVosOf(table).Done? && AllVosOf(table).value.Some?
        && (forall vo :: vo in r.value ==> vo in AllVosOf(table).value.value && vo.Str? && r.value[vo] != map[])
        && (forall vo, id :: vo in r.value && id in r.value[vo] ==>
              exists j :: 0 <= j < |table| && IdOf(table[j]) == Some(id) && Qualifies(table[j], vo, parse, r.value[vo][id]))
        && (forall vo, j, f :: vo in AllVosOf(table).value.value && 0 <= j < |table| && Qualifies(table[j], vo, parse, f) ==>
              vo in r.value && IdOf(table[j]).value in r.value[vo])
  {
    FindSpec(table, Str("ylegend"));
    var r := AccountingAllVosOf(table, parse);
    if AllVosOf(table).Done? && AllVosOf(table).value.Some? {
      ActiveVosSpec(table, AllVosOf(table).value.value, parse, map[]);
    }
    if r.Done? {
      var vos := AllVosOf(table).value.value;
      forall vo | vo in r.value ensures vo.Str? {
        var sites := VoSites(table, vo, parse, map[]).value;
        VoSitesSpec(table, vo, parse, map[]);
        var id :| id in sites;
        var j :| 0 <= j < |table| && IdOf(table[j]) == Some(id) && Qualifies(table[j], vo, parse, sites[id]);
      }
      forall vo, id | vo in r.value && id in r.value[vo]
        ensures exists j :: 0 <= j < |table| && IdOf(table[j]) == Some(id) && Qualifies(table[j], vo, parse, r.value[vo][id])
      {
        VoSitesSpec(table, vo, parse, map[]);
      }
      forall vo, j, f | vo in vos && 0 <= j < |table| && Qualifies(table[j], vo, parse, f)
        ensures vo in r.value && IdOf(table[j]).value in r.value[vo]
      {
        VoSitesSpec(table, vo, parse, map[]);
      }
    }
  }

  // ---------------------------------------------------------------------
  // The client object

  class Accounting {
    /** `_data`: empty until the first query loads it. */
    var data: Table
    const days: nat
    /** The table a fetch from the portal returns. */
    const fetched: Table

    constructor(fetched: Table)
      ensures data == [] && days == AccountingDays && this.fetched == fetched
    {
      data := [];
      days := AccountingDays;
      this.fetched := fetched;
    }

    /** `if not self._data: self._get_accounting_data()`. */
    method Load()
      modifies this
      ensures data == (if old(data) == [] then fetched else old(data))
    {
      if data == [] {
        data := fetched;
      }
    }

    method SiteVos(site: string) returns (vos: Scan<set<string>>)
      modifies this
      ensures data == (if old(data) == [] then fetched else old(data))
      ensures vos == SiteVosOf(data, site)
    {
      Load();
      vos := SiteVosOf(data, site);
    }

    method AllSites() returns (sites: Scan<seq<Json>>)
      modifies this
      ensures data == (if old(data) == [] then fetched else old(data))
      ensures sites == AllSitesOf(data)
    {
      Load();
      sites := AllSitesOf(data);
    }

    method AllVos() returns (vos: Scan<Option<seq<Json>>>)
      modifies this
      ensures data == (if old(data) == [] then fetched else old(data))
      ensures vos == AllVosOf(data)
    {
      Load();
      vos := AllVosOf(data);
    }

    /** `accounting_all_vos`: for every VO, the sites with positive usage, dropping VOs with none. */
    method AccountingAllVos(parse: string -> Option<real>) returns (active: Scan<map<Json, map<Json, real>>>)
      modifies this
      ensures data == (if old(data) == [] then fetched else old(data))
      ensures active == AccountingAllVosOf(data, parse)
    {
      var legend := AllVos();
      if legend.Raised? {
        return Raised(legend.error);
      }
      if legend.value.None? {
        return Raised(NoVoLegend);
      }
      var vos := legend.value.value;
      var result: map<Json, map<Json, real>> := map[];
      for i := 0 to |vos|
        invariant data == (if old(data) == [] then fetched else old(data))
        invariant ActiveVos(data, vos[i..], parse, result) == ActiveVos(data, vos, parse, map[])
      {
        assert vos[i..][1..] == vos[i + 1..];
        ActiveVosStep(data, vos[i..], parse, result);
        var sites := UsageOf(vos[i], parse);
        if sites.Raised? {
          return Raised(sites.error);
        }
        ghost var kept := Keep(result, vos[i], sites.value);
        assert result[vos[i] := sites.value] - {vos[i]} == result - {vos[i]};
        result := result[vos[i] := sites.value];
        if |result[vos[i]]| == 0 {
          result := result - {vos[i]};
        }
        assert result == kept;
      }
      active := Done(result);
    }

    /** The inner loop of `accounting_all_vos` for one VO. */
    method UsageOf(vo: Json, parse: string -> Option<real>) returns (sites: Scan<map<Json, real>>)
      ensures sites == VoSites(data, vo, parse, map[])
    {
      var found: map<Json, real> := map[];
      for j := 0 to |data|
        invariant VoSites(data[j..], vo, parse, found) == VoSites(data, vo, parse, map[])
      {
        assert data[j..][1..] == data[j + 1..];
        var col := data[j];
        var id := IdOf(col);
        if id.None? {
          return Raised(MissingId);
        }
        var cell := Cell(col, vo);
        if !Excluded(id.value) && cell.Some? && cell.value != Null {
          var cpuh := ToFloat(cell.value, parse);
          if cpuh.None? {
            return Raised(NotAFloat);
          }
          if cpuh.value > 0.0 {
            found := found[id.value := cpuh.value];
          }
        }
      }
      sites := Done(found);
    }
  }
}
