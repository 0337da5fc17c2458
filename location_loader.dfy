/**
 * The location loader script: reads district, municipality and ward-count
 * rows from a CSV file and inserts whatever is missing, so that loading
 * the same file again inserts nothing. Districts are cached by name and
 * municipalities by (district id, name); the wards 1..n of each
 * municipality are ensured one number at a time.
 *
 * The database is the LocationStore object; the CSV reader's rows are
 * the input, and the progress messages are not modelled.
 */
module LocationLoader {
  import opened Wrappers
  import Text

  /** A CSV row: the District, Name of Municipalities and Numbers of Wards columns. */
  datatype CsvRow = CsvRow(district: string, municipality: string, wards: string)

  datatype District = District(id: int, name: string)
  datatype Municipality = Municipality(id: int, name: string, districtId: int)
  datatype Ward = Ward(wardNumber: int, municipalityId: int)

  /** `filter_by(name=...).first()` on the district table. */
  function FindDistrict(ds: seq<District>, name: string): (r: Option<District>)
    ensures r.Some? ==> r.value in ds && r.value.name == name
  {
    if ds == [] then None
    else if ds[0].name == name then Some(ds[0])
    else FindDistrict(ds[1..], name)
  }

  /** `filter_by(name=..., district_id=...).first()` on the municipality table. */
  function FindMunicipality(ms: seq<Municipality>, name: string, districtId: int): (r: Option<Municipality>)
    ensures r.Some? ==> r.value in ms && r.value.name == name && r.value.districtId == districtId
  {
    if ms == [] then None
    else if ms[0].name == name && ms[0].districtId == districtId then Some(ms[0])
    else FindMunicipality(ms[1..], name, districtId)
  }

  /** Appending a district never changes what an earlier lookup found. */
  lemma {:induction false} FindDistrictAppend(ds: seq<District>, d: District, name: string)
    ensures FindDistrict(ds + [d], name) ==
      if FindDistrict(ds, name).Some? then FindDistrict(ds, name)
      else if d.name == name then Some(d) else None
  {
    if ds != [] {
      assert (ds + [d])[1..] == ds[1..] + [d];
      FindDistrictAppend(ds[1..], d, name);
    }
  }

  lemma {:induction false} FindMunicipalityAppend(ms: seq<Municipality>, m: Municipality, name: string, districtId: int)
    ensures FindMunicipality(ms + [m], name, districtId) ==
      if FindMunicipality(ms, name, districtId).Some? then FindMunicipality(ms, name, districtId)
      else if m.name == name && m.districtId == districtId then Some(m) else None
  {
    if ms != [] {
      assert (ms + [m])[1..] == ms[1..] + [m];
      FindMunicipalityAppend(ms[1..], m, name, districtId);
    }
  }

  /** A row as the loader reads it: both names stripped, and the ward count int() gives. */
  datatype Entry = Entry(district: string, municipality: string, wards: int)

  /** The row's entry, or None when int() rejects the ward column and the row is skipped. */
  function Parse(row: CsvRow): (e: Option<Entry>)
    ensures e.None? <==> Text.PyInt(row.wards).None?
    ensures e.Some? ==> e.value.district == Text.PyStrip(row.district) && e.value.municipality == Text.PyStrip(row.municipality)
  {
    var n := Text.PyInt(row.wards);
    if n.None? then None
    else Some(Entry(Text.PyStrip(row.district), Text.PyStrip(row.municipality), n.value))
  }

  function ParseAll(rows: seq<CsvRow>): (r: seq<Option<Entry>>)
    ensures |r| == |rows| && forall i :: 0 <= i < |rows| ==> r[i] == Parse(rows[i])
  {
    if rows == [] then [] else [Parse(rows[0])] + ParseAll(rows[1..])
  }

  /** The ward numbers 1..n of a municipality that the table lacks, in increasing order. */
  function MissingWards(ws: seq<Ward>, municipalityId: int, n: int): (r: seq<Ward>)
    ensures forall w :: w in r ==> w.municipalityId == municipalityId && 1 <= w.wardNumber <= n && w !in ws
    ensures forall k :: 1 <= k <= n && Ward(k, municipalityId) !in ws ==> Ward(k, municipalityId) in r
  {
    if n < 1 then []
    else MissingWards(ws, municipalityId, n - 1) + (if Ward(n, municipalityId) in ws then [] else [Ward(n, municipalityId)])
  }

  /** With no ward missing, there is nothing to insert. */
  lemma NoneMissing(ws: seq<Ward>, municipalityId: int, n: int)
    requires forall k :: 1 <= k <= n ==> Ward(k, municipalityId) in ws
    ensures MissingWards(ws, municipalityId, n) == []
  {
  }

  /** The district, the municipality under it and its wards 1..n are all present. */
  ghost predicate CoveredNames(ds: seq<District>, ms: seq<Municipality>, ws: seq<Ward>,
                               districtName: string, municipalityName: string, n: int)
  {
    var d := FindDistrict(ds, districtName);
    && d.Some?
    && var m := FindMunicipality(ms, municipalityName, d.value.id);
    && m.Some?
    && forall k :: 1 <= k <= n ==> Ward(k, m.value.id) in ws
  }

  /** A row the loader accepts is covered once its stripped names and its wards are present. */
  ghost predicate CoveredRow(ds: seq<District>, ms: seq<Municipality>, ws: seq<Ward>, e: Option<Entry>)
  {
    e.Some? ==> CoveredNames(ds, ms, ws, e.value.district, e.value.municipality, e.value.wards)
  }

  ghost predicate Covers(ds: seq<District>, ms: seq<Municipality>, ws: seq<Ward>, entries: seq<Option<Entry>>)
  {
    forall i :: 0 <= i < |entries| ==> CoveredRow(ds, ms, ws, entries[i])
  }

  /** The second table keeps every district lookup the first answered. */
  ghost predicate DistrictsGrow(ds: seq<District>, ds': seq<District>)
  {
    && ds <= ds'
    && forall name :: FindDistrict(ds, name).Some? ==> FindDistrict(ds', name) == FindDistrict(ds, name)
  }

  ghost predicate MunicipalitiesGrow(ms: seq<Municipality>, ms': seq<Municipality>)
  {
    && ms <= ms'
    && forall name, id :: FindMunicipality(ms, name, id).Some? ==>
         FindMunicipality(ms', name, id) == FindMunicipality(ms, name, id)
  }

  ghost predicate Grows(ds: seq<District>, ms: seq<Municipality>, ws: seq<Ward>,
                        ds': seq<District>, ms': seq<Municipality>, ws': seq<Ward>)
  {
    DistrictsGrow(ds, ds') && MunicipalitiesGrow(ms, ms') && ws <= ws'
  }

  lemma DistrictsGrowAppend(ds: seq<District>, d: District)
    requires FindDistrict(ds, d.name).None?
    ensures DistrictsGrow(ds, ds + [d]) && FindDistrict(ds + [d], d.name) == Some(d)
  {
    forall name | FindDistrict(ds, name).Some?
      ensures FindDistrict(ds + [d], name) == FindDistrict(ds, name)
    {
      FindDistrictAppend(ds, d, name);
    }
    FindDistrictAppend(ds, d, d.name);
  }

  lemma MunicipalitiesGrowAppend(ms: seq<Municipality>, m: Municipality)
    requires FindMunicipality(ms, m.name, m.districtId).None?
    ensures MunicipalitiesGrow(ms, ms + [m]) && FindMunicipality(ms + [m], m.name, m.districtId) == Some(m)
  {
    forall name, id | FindMunicipality(ms, name, id).Some?
      ensures FindMunicipality(ms + [m], name, id) == FindMunicipality(ms, name, id)
    {
      FindMunicipalityAppend(ms, m, name, id);
    }
    FindMunicipalityAppend(ms, m, m.name, m.districtId);
  }

  lemma CoveredRowGrows(ds: seq<District>, ms: seq<Municipality>, ws: seq<Ward>,
                        ds': seq<District>, ms': seq<Municipality>, ws': seq<Ward>, e: Option<Entry>)
    requires CoveredRow(ds, ms, ws, e) && Grows(ds, ms, ws, ds', ms', ws')
    ensures CoveredRow(ds', ms', ws', e)
  {
    if e.Some? {
      var d := FindDistrict(ds, e.value.district);
      var m := FindMunicipality(ms, e.value.municipality, d.value.id);
      forall k | 1 <= k <= e.value.wards
        ensures Ward(k, m.value.id) in ws'
      {
        assert Ward(k, m.value.id) in ws;
      }
    }
  }

  /**
   * What the loader has achieved after the entries `done`, starting from
   * the tables (ds0, ms0, ws0) with c0 commits: those entries are covered,
   * the tables only grew, by the counted totals, and if the whole file was
   * covered from the start nothing changed.
   */
  ghost predicate Loaded(ds0: seq<District>, ms0: seq<Municipality>, ws0: seq<Ward>, c0: nat,
                         ds: seq<District>, ms: seq<Municipality>, ws: seq<Ward>, c: nat,
                         done: seq<Option<Entry>>, totalDistricts: nat, totalMunicipalities: nat, totalWards: nat,
                         covered: bool)
  {
    && Covers(ds, ms, ws, done)
    && Grows(ds0, ms0, ws0, ds, ms, ws)
    && |ds| == |ds0| + totalDistricts && |ms| == |ms0| + totalMunicipalities && |ws| == |ws0| + totalWards
    && (covered ==> ds == ds0 && ms == ms0 && ws == ws0 && c == c0
                    && totalDistricts == 0 && totalMunicipalities == 0 && totalWards == 0)
  }

  /** One more entry loaded, given what LoadRow promises about it. */
  lemma LoadedStep(ds0: seq<District>, ms0: seq<Municipality>, ws0: seq<Ward>, c0: nat,
                   ds: seq<District>, ms: seq<Municipality>, ws: seq<Ward>, c: nat,
                   ds': seq<District>, ms': seq<Municipality>, ws': seq<Ward>, c': nat,
                   entries: seq<Option<Entry>>, i: nat, totalDistricts: nat, totalMunicipalities: nat, totalWards: nat,
                   d: nat, m: nat, w: nat, covered: bool)
    requires i < |entries|
    requires Loaded(ds0, ms0, ws0, c0, ds, ms, ws, c, entries[..i], totalDistricts, totalMunicipalities, totalWards, covered)
    requires covered ==> Covers(ds0, ms0, ws0, entries)
    requires CoveredRow(ds', ms', ws', entries[i]) && Grows(ds, ms, ws, ds', ms', ws')
    requires |ds'| == |ds| + d && |ms'| == |ms| + m && |ws'| == |ws| + w
    requires CoveredRow(ds, ms, ws, entries[i]) ==> ds' == ds && ms' == ms && ws' == ws && c' == c
    ensures Loaded(ds0, ms0, ws0, c0, ds', ms', ws', c', entries[..i + 1],
                   totalDistricts + d, totalMunicipalities + m, totalWards + w, covered)
  {
    if covered {
      assert CoveredRow(ds, ms, ws, entries[i]);
    }
    CoversExtend(ds, ms, ws, ds', ms', ws', entries, i);
    GrowsTrans(ds0, ms0, ws0, ds, ms, ws, ds', ms', ws');
  }

  /** The entries before i stay covered as the tables grow, and entry i joins them. */
  lemma CoversExtend(ds: seq<District>, ms: seq<Municipality>, ws: seq<Ward>,
                     ds': seq<District>, ms': seq<Municipality>, ws': seq<Ward>, entries: seq<Option<Entry>>, i: nat)
    requires i < |entries|
    requires Covers(ds, ms, ws, entries[..i]) && Grows(ds, ms, ws, ds', ms', ws')
    requires CoveredRow(ds', ms', ws', entries[i])
    ensures Covers(ds', ms', ws', entries[..i + 1])
  {
    var grown := entries[..i + 1];
    forall j | 0 <= j < |grown|
      ensures CoveredRow(ds', ms', ws', grown[j])
    {
      assert grown[j] == entries[j];
      if j < i {
        assert entries[..i][j] == entries[j];
        CoveredRowGrows(ds, ms, ws, ds', ms', ws', entries[j]);
      }
    }
  }

  lemma GrowsTrans(ds: seq<District>, ms: seq<Municipality>, ws: seq<Ward>,
                   ds1: seq<District>, ms1: seq<Municipality>, ws1: seq<Ward>,
                   ds2: seq<District>, ms2: seq<Municipality>, ws2: seq<Ward>)
    requires Grows(ds, ms, ws, ds1, ms1, ws1) && Grows(ds1, ms1, ws1, ds2, ms2, ws2)
    ensures Grows(ds, ms, ws, ds2, ms2, ws2)
  {
  }

  /** The district cache agrees with the district table. */
  ghost predicate DistrictCacheAgrees(ds: seq<District>, cache: map<string, District>)
  {
    forall name :: name in cache ==> FindDistrict(ds, name) == Some(cache[name])
  }

  /** The municipality cache, keyed by (district id, name), agrees with the municipality table. */
  ghost predicate MunicipalityCacheAgrees(ms: seq<Municipality>, cache: map<(int, string), Municipality>)
  {
    forall key :: key in cache ==> FindMunicipality(ms, key.1, key.0) == Some(cache[key])
  }

  /** The district and municipality tables plus the ward table, with their id counters and the commits made. */
  class LocationStore {
    var districts: seq<District>
    var municipalities: seq<Municipality>
    var wards: seq<Ward>
    var nextDistrictId: int
    var nextMunicipalityId: int
    var commits: nat

    constructor (ds: seq<District>, ms: seq<Municipality>, ws: seq<Ward>, nextDistrict: int, nextMunicipality: int)
      ensures districts == ds && municipalities == ms && wards == ws
      ensures nextDistrictId == nextDistrict && nextMunicipalityId == nextMunicipality && commits == 0
    {
      districts, municipalities, wards := ds, ms, ws;
      nextDistrictId, nextMunicipalityId := nextDistrict, nextMunicipality;
      commits := 0;
    }

    /** The district of that name, from the cache, the table, or a fresh insert that is committed at once. */
    method EnsureDistrict(name: string, cache: map<string, District>)
      returns (d: District, cache': map<string, District>, added: nat)
      requires DistrictCacheAgrees(districts, cache)
      modifies this
      ensures DistrictCacheAgrees(districts, cache')
      ensures FindDistrict(districts, name) == Some(d)
      ensures DistrictsGrow(old(districts), districts)
      ensures |districts| == old(|districts|) + added && commits == old(commits) + added
      ensures old(FindDistrict(districts, name)).Some? ==> districts == old(districts) && added == 0
      ensures municipalities == old(municipalities) && wards == old(wards)
      ensures nextMunicipalityId == old(nextMunicipalityId)
    {
      added := 0;
      if name in cache {
        return cache[name], cache, 0;
      }
      var found := FindDistrict(districts, name);
      if found.None? {
        d := District(nextDistrictId, name);
        DistrictsGrowAppend(districts, d);
        districts := districts + [d];
        nextDistrictId := nextDistrictId + 1;
        commits := commits + 1;
        added := 1;
      } else {
        d := found.value;
      }
      cache' := cache[name := d];
    }

    /** The municipality of that name under that district, found or inserted and committed. */
    method EnsureMunicipality(name: string, districtId: int, cache: map<(int, string), Municipality>)
      returns (m: Municipality, cache': map<(int, string), Municipality>, added: nat)
      requires MunicipalityCacheAgrees(municipalities, cache)
      modifies this
      ensures MunicipalityCacheAgrees(municipalities, cache')
      ensures FindMunicipality(municipalities, name, districtId) == Some(m)
      ensures MunicipalitiesGrow(old(municipalities), municipalities)
      ensures |municipalities| == old(|municipalities|) + added && commits == old(commits) + added
      ensures old(FindMunicipality(municipalities, name, districtId)).Some? ==>
        municipalities == old(municipalities) && added == 0
      ensures districts == old(districts) && wards == old(wards)
      ensures nextDistrictId == old(nextDistrictId)
    {
      added := 0;
      var key := (districtId, name);
      if key in cache {
        return cache[key], cache, 0;
      }
      var found := FindMunicipality(municipalities, name, districtId);
      if found.None? {
        m := Municipality(nextMunicipalityId, name, districtId);
        MunicipalitiesGrowAppend(municipalities, m);
        municipalities := municipalities + [m];
        nextMunicipalityId := nextMunicipalityId + 1;
        commits := commits + 1;
        added := 1;
      } else {
        m := found.value;
      }
      cache' := cache[key := m];
    }

    /**
     * The ward loop of one row: each number 1..n not yet present is
     * inserted, and one commit follows only if something was.
     */
    method EnsureWards(municipalityId: int, n: int) returns (newWards: nat)
      modifies this
      ensures wards == old(wards) + MissingWards(old(wards), municipalityId, n)
      ensures newWards == |MissingWards(old(wards), municipalityId, n)|
      ensures commits == old(commits) + (if newWards > 0 then 1 else 0)
      ensures districts == old(districts) && municipalities == old(municipalities)
      ensures nextDistrictId == old(nextDistrictId) && nextMunicipalityId == old(nextMunicipalityId)
    {
      newWards := 0;
      var k := 1;
      while k <= n
        invariant 1 <= k <= (if n >= 1 then n + 1 else 1)
        invariant wards == old(wards) + MissingWards(old(wards), municipalityId, k - 1)
        invariant newWards == |MissingWards(old(wards), municipalityId, k - 1)|
        invariant districts == old(districts) && municipalities == old(municipalities) && commits == old(commits)
        invariant nextDistrictId == old(nextDistrictId) && nextMunicipalityId == old(nextMunicipalityId)
      {
        var w := Ward(k, municipalityId);
        assert w in wards <==> w in old(wards) by {
          assert forall x :: x in MissingWards(old(wards), municipalityId, k - 1) ==> x.wardNumber < k;
        }
        if w !in wards {
          wards := wards + [w];
          newWards := newWards + 1;
        }
        k := k + 1;
      }
      if newWards > 0 {
        commits := commits + 1;
      }
    }

    /** One accepted row: ensure its district, its municipality and its wards. */
    method LoadEntry(e: Entry, districtCache: map<string, District>, municipalityCache: map<(int, string), Municipality>)
      returns (districtCache': map<string, District>, municipalityCache': map<(int, string), Municipality>,
               newDistricts: nat, newMunicipalities: nat, newWards: nat)
      requires DistrictCacheAgrees(districts, districtCache)
      requires MunicipalityCacheAgrees(municipalities, municipalityCache)
      modifies this
      ensures DistrictCacheAgrees(districts, districtCache')
      ensures MunicipalityCacheAgrees(municipalities, municipalityCache')
      ensures CoveredRow(districts, municipalities, wards, Some(e))
      ensures Grows(old(districts), old(municipalities), old(wards), districts, municipalities, wards)
      ensures |districts| == old(|districts|) + newDistricts
      ensures |municipalities| == old(|municipalities|) + newMunicipalities
      ensures |wards| == old(|wards|) + newWards
      ensures commits == old(commits) + newDistricts + newMunicipalities + (if newWards > 0 then 1 else 0)
      ensures old(CoveredRow(districts, municipalities, wards, Some(e))) ==>
        districts == old(districts) && municipalities == old(municipalities) && wards == old(wards)
        && commits == old(commits)
    {
      ghost var wasCovered := CoveredNames(districts, municipalities, wards, e.district, e.municipality, e.wards);
      var district, municipality;
      district, districtCache', newDistricts := EnsureDistrict(e.district, districtCache);
      assert MunicipalityCacheAgrees(municipalities, municipalityCache);
      municipality, municipalityCache', newMunicipalities := EnsureMunicipality(e.municipality, district.id, municipalityCache);
      assert FindDistrict(districts, e.district) == Some(district);
      ghost var ws0 := wards;
      newWards := EnsureWards(municipality.id, e.wards);
      forall k | 1 <= k <= e.wards
        ensures Ward(k, municipality.id) in wards
      {
        if Ward(k, municipality.id) !in ws0 {
          assert Ward(k, municipality.id) in MissingWards(ws0, municipality.id, e.wards);
        }
      }
      assert CoveredNames(districts, municipalities, wards, e.district, e.municipality, e.wards);
      if wasCovered {
        NoneMissing(ws0, municipality.id, e.wards);
      }
    }

    /**
     * The loading loop over the parsed rows, with the caches shared across
     * rows; a row int() rejected is skipped. Afterwards the tables cover
     * every entry; on tables that already cover them nothing is inserted
     * and nothing committed.
     */
    method LoadEntries(entries: seq<Option<Entry>>) returns (totalDistricts: nat, totalMunicipalities: nat, totalWards: nat)
      modifies this
      ensures Loaded(old(districts), old(municipalities), old(wards), old(commits),
                     districts, municipalities, wards, commits,
                     entries, totalDistricts, totalMunicipalities, totalWards,
                     old(Covers(districts, municipalities, wards, entries)))
    {
      var districtCache: map<string, District> := map[];
      var municipalityCache: map<(int, string), Municipality> := map[];
      totalDistricts, totalMunicipalities, totalWards := 0, 0, 0;
      ghost var covered := Covers(districts, municipalities, wards, entries);
      for i := 0 to |entries|
        invariant DistrictCacheAgrees(districts, districtCache)
        invariant MunicipalityCacheAgrees(municipalities, municipalityCache)
        invariant Loaded(old(districts), old(municipalities), old(wards), old(commits),
                         districts, municipalities, wards, commits,
                         entries[..i], totalDistricts, totalMunicipalities, totalWards, covered)
      {
        ghost var ds, ms, ws, c := districts, municipalities, wards, commits;
        var d, m, w := 0, 0, 0;
        if entries[i].Some? {
          districtCache, municipalityCache, d, m, w := LoadEntry(entries[i].value, districtCache, municipalityCache);
        }
        LoadedStep(old(districts), old(municipalities), old(wards), old(commits), ds, ms, ws, c,
                   districts, municipalities, wards, commits, entries, i,
                   totalDistricts, totalMunicipalities, totalWards, d, m, w, covered);
        totalDistricts, totalMunicipalities, totalWards := totalDistricts + d, totalMunicipalities + m, totalWards + w;
      }
      assert entries[..|entries|] == entries;
    }

    /**
     * load_locations: every row parsed, then loaded in order. Afterwards
     * the tables cover the file; on tables that already cover it nothing
     * is inserted and nothing committed, so a second run on the same file
     * changes nothing.
     */
    method LoadLocations(rows: seq<CsvRow>) returns (totalDistricts: nat, totalMunicipalities: nat, totalWards: nat)
      modifies this
      ensures Loaded(old(districts), old(municipalities), old(wards), old(commits),
                     districts, municipalities, wards, commits,
                     ParseAll(rows), totalDistricts, totalMunicipalities, totalWards,
                     old(Covers(districts, municipalities, wards, ParseAll(rows))))
    {
      totalDistricts, totalMunicipalities, totalWards := LoadEntries(ParseAll(rows));
    }
  }
}
