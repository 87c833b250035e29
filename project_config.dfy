/** The `[tool.datamodel-codegen]` table of the project's `pyproject.toml`,
    with its keys normalised to option names (`__main__.py` lines 60-72). */
module ProjectConfig {
  import opened Base
  import opened Json

  /** `k.replace('-', '_')`: every dash becomes an underscore. */
  function NormalizeKey(k: string): (r: string)
    ensures |r| == |k|
    ensures forall i | 0 <= i < |k| :: r[i] == (if k[i] == '-' then '_' else k[i])
    ensures '-' !in r
  {
    if k == [] then []
    else [if k[0] == '-' then '_' else k[0]] + NormalizeKey(k[1..])
  }

  /** A key that holds no dash is already normalised. */
  lemma NormalizeKeyFixes(k: string)
    requires '-' !in k
    ensures NormalizeKey(k) == k
  {
    var r := NormalizeKey(k);
    assert forall i | 0 <= i < |k| :: r[i] == k[i];
  }

  /** Normalising twice is normalising once. */
  lemma NormalizeKeyIdempotent(k: string)
    ensures NormalizeKey(NormalizeKey(k)) == NormalizeKey(k)
  {
    NormalizeKeyFixes(NormalizeKey(k));
  }

  /** Normalisation works character by character, so it distributes over concatenation. */
  lemma {:induction false} NormalizeKeyConcat(a: string, b: string)
    ensures NormalizeKey(a + b) == NormalizeKey(a) + NormalizeKey(b)
  {
    if a != [] {
      assert (a + b)[1..] == a[1..] + b;
      NormalizeKeyConcat(a[1..], b);
    }
  }

  /** Two dash-free words joined by a dash normalise to the same words
      joined by an underscore. */
  lemma NormalizeDashJoin(a: string, b: string)
    requires '-' !in a && '-' !in b
    ensures NormalizeKey(a + "-" + b) == a + "_" + b
  {
    NormalizeKeyConcat(a + "-", b);
    NormalizeKeyConcat(a, "-");
    NormalizeKeyFixes(a);
    NormalizeKeyFixes(b);
  }

  /** The pairs of the table with their keys normalised, in table order. */
  function NormalizePairs<V>(items: seq<(string, V)>): (r: seq<(string, V)>)
    ensures |r| == |items|
    ensures forall i | 0 <= i < |items| :: r[i] == (NormalizeKey(items[i].0), items[i].1)
  {
    seq(|items|, i requires 0 <= i < |items| => (NormalizeKey(items[i].0), items[i].1))
  }

  /** The dictionary comprehension of lines 64-70: each key normalised, each
      value kept; when two keys normalise alike the later one wins. */
  function NormalizeTable<V>(items: seq<(string, V)>): map<string, V>
  {
    DictOf(NormalizePairs(items))
  }

  /** The normalised table has exactly the normalised keys, none with a dash. */
  lemma NormalizeTableKeys<V>(items: seq<(string, V)>)
    ensures NormalizeTable(items).Keys == set i | 0 <= i < |items| :: NormalizeKey(items[i].0)
    ensures forall k | k in NormalizeTable(items) :: '-' !in k
  {
    var p := NormalizePairs(items);
    assert KeysOf(p) == set i | 0 <= i < |items| :: NormalizeKey(items[i].0) by {
      forall k | k in KeysOf(p) ensures k in set i | 0 <= i < |items| :: NormalizeKey(items[i].0) {
        var i :| 0 <= i < |p| && p[i].0 == k;
      }
    }
  }

  /** Values are unchanged: each entry holds the value of the last table
      pair whose key normalises to it. */
  lemma NormalizeTableValues<V>(items: seq<(string, V)>, k: string)
    requires k in NormalizeTable(items)
    ensures exists i ::
      (&& 0 <= i < |items| && NormalizeKey(items[i].0) == k
       && NormalizeTable(items)[k] == items[i].1
       && forall j | i < j < |items| :: NormalizeKey(items[j].0) != k)
  {
    var p := NormalizePairs(items);
    DictOfLastWins(p, k);
    var i :| IsLastFor(p, k, i) && DictOf(p)[k] == p[i].1;
    assert forall j | i < j < |items| :: NormalizeKey(items[j].0) != k by {
      forall j | i < j < |items| ensures NormalizeKey(items[j].0) != k {
        assert p[j].0 == NormalizeKey(items[j].0);
      }
    }
  }

  /** `items` lists the dictionary `d`: distinct keys, exactly its entries. */
  ghost predicate Lists<V>(items: seq<(string, V)>, d: map<string, V>)
  {
    && DistinctKeys(items)
    && KeysOf(items) == d.Keys
    && forall i | 0 <= i < |items| :: items[i].0 in d && d[items[i].0] == items[i].1
  }

  /** Normalisation is idempotent: normalising the items of an already
      normalised table, in any order, gives that table back. */
  lemma {:induction false} NormalizeTableIdempotent<V>(items: seq<(string, V)>, again: seq<(string, V)>)
    requires Lists(again, NormalizeTable(items))
    ensures NormalizeTable(again) == NormalizeTable(items)
  {
    var t := NormalizeTable(items);
    NormalizeTableKeys(items);
    var p := NormalizePairs(again);
    assert p == again by {
      forall i | 0 <= i < |again| ensures p[i] == again[i] {
        assert again[i].0 in t;
        NormalizeKeyFixes(again[i].0);
      }
    }
    var r := DictOf(again);
    forall k | k in r ensures r[k] == t[k] {
      var i :| 0 <= i < |again| && again[i].0 == k;
      DictOfDistinct(again, i);
    }
  }

  /** The project file as found: absent, not valid TOML, or its top-level table. */
  datatype ProjectFile = Absent | Malformed | Toml(fields: seq<(string, Value)>)

  /** Why the table could not be read. `NotATable` is Python's failure to
      call `.get` or `.items` on a value that is not a table. */
  datatype LoadError = Unparsable | NotATable(key: string)

  const Tool := "tool"
  const Section := "datamodel-codegen"

  /** The option mapping of lines 60-72: an absent file gives the empty
      mapping; otherwise the section `tool.datamodel-codegen`, where a
      missing level also gives the empty mapping, with its keys normalised.
      TOML forbids a key twice in one table, so a repeated key on the way to
      the section, or inside it, makes the file unparsable. */
  function LoadProjectTable(file: ProjectFile): (r: Result<map<string, Value>, LoadError>)
    ensures file.Absent? ==> r == Ok(map[])
    ensures file.Malformed? ==> r == Err(Unparsable)
    ensures file.Toml? && !DistinctKeys(file.fields) ==> r == Err(Unparsable)
    ensures file.Toml? && DistinctKeys(file.fields) && Get(file.fields, Tool).None? ==> r == Ok(map[])
    ensures file.Toml? && DistinctKeys(file.fields) && Get(file.fields, Tool).Some? ==>
      var tool := Get(file.fields, Tool).value;
      && (!tool.Obj? ==> r == Err(NotATable(Tool)))
      && (tool.Obj? && !DistinctKeys(tool.fields) ==> r == Err(Unparsable))
      && (tool.Obj? && DistinctKeys(tool.fields) ==> SectionLoads(tool.fields, r))
    ensures r.Ok? ==> forall k | k in r.value :: '-' !in k
  {
    match file
    case Absent => Ok(map[])
    case Malformed => Err(Unparsable)
    case Toml(top) =>
      if !DistinctKeys(top) then Err(Unparsable)
      else match Get(top, Tool)
        case None => Ok(map[])
        case Some(Obj(tool)) =>
          if !DistinctKeys(tool) then Err(Unparsable)
          else LoadSection(tool)
        case Some(_) => Err(NotATable(Tool))
  }

  /** How the `datamodel-codegen` entry of the `tool` table loads: a missing
      section is the empty mapping, a section that is not a table is an error,
      a section with a repeated key is unparsable, and any other section is
      its normalised table. */
  predicate SectionLoads(tool: seq<(string, Value)>, r: Result<map<string, Value>, LoadError>)
  {
    match Get(tool, Section)
    case None => r == Ok(map[])
    case Some(section) =>
      if !section.Obj? then r == Err(NotATable(Section))
      else if !DistinctKeys(section.fields) then r == Err(Unparsable)
      else r == Ok(NormalizeTable(section.fields))
  }

  /** The section's part of `LoadProjectTable`. */
  function LoadSection(tool: seq<(string, Value)>): (r: Result<map<string, Value>, LoadError>)
    ensures SectionLoads(tool, r)
    ensures r.Ok? ==> forall k | k in r.value :: '-' !in k
  {
    match Get(tool, Section)
    case None => Ok(map[])
    case Some(Obj(section)) =>
      if DistinctKeys(section) then
        NormalizeTableKeys(section);
        Ok(NormalizeTable(section))
      else Err(Unparsable)
    case Some(_) => Err(NotATable(Section))
  }
}
