/**
 * The APL zone of a commune (`zone_apl`): a table from INSEE commune codes
 * (`depcom`) to zones, built once from a zoning file and then extended with
 * the subcommunes (municipal arrondissements and associated communes), each
 * of which takes the zone of its parent commune. An unknown code falls back
 * to zone 2. Reading the files is not modelled: the rows of the zoning file
 * and the entries of the subcommune file arrive as sequences, in the order
 * they are read.
 */
module ZoneApl {

  datatype Option<T> = None | Some(value: T)

  datatype LoadError =
    | BadZonage(codgeo: string)                           // `int(row['Zonage'][0])` fails
    | MissingCommune(subcommune: string, commune: string) // `zone_apl_by_depcom[commune_depcom]` fails

  datatype Result<T> = Ok(value: T) | Err(error: LoadError)

  /** One row of the zoning file: the commune code and its `Zonage` column. */
  datatype Row = Row(codgeo: string, zonage: string)

  /** One entry of the subcommune file: a subcommune code and its parent commune's code. */
  datatype Link = Link(subcommune: string, commune: string)

  /** The zone of a `Zonage` cell: its first character read as a digit, so that `1bis` counts as 1. */
  function ZoneOfZonage(zonage: string): (r: Option<int>)
    ensures r.Some? <==> |zonage| > 0 && '0' <= zonage[0] <= '9'
    ensures r.Some? ==> 0 <= r.value <= 9 && ('0' as int + r.value) as char == zonage[0]
  {
    if |zonage| > 0 && '0' <= zonage[0] <= '9' then Some((zonage[0] as int) - ('0' as int)) else None
  }

  lemma ZonageExamples()
    ensures ZoneOfZonage("1bis") == Some(1)
    ensures ZoneOfZonage("3") == Some(3)
    ensures ZoneOfZonage("") == None
  {
  }

  /**
   * The dict comprehension over the rows: each row sets its code's zone, a
   * later row overriding an earlier one; the first row whose zone cannot be
   * read stops the load.
   */
  function ZonesOfRows(rows: seq<Row>): Result<map<string, int>>
    decreases |rows|
  {
    if rows == [] then Ok(map[])
    else
      var last := rows[|rows| - 1];
      match ZonesOfRows(rows[..|rows| - 1])
      case Err(e) => Err(e)
      case Ok(m) =>
        match ZoneOfZonage(last.zonage)
        case None => Err(BadZonage(last.codgeo))
        case Some(z) => Ok(m[last.codgeo := z])
  }

  /** The codes the rows name. */
  function Codes(rows: seq<Row>): set<string> {
    set i | 0 <= i < |rows| :: rows[i].codgeo
  }

  /** No later row repeats the code of row `i`. */
  predicate LastOfCode(rows: seq<Row>, i: int)
    requires 0 <= i < |rows|
  {
    forall j :: i < j < |rows| ==> rows[j].codgeo != rows[i].codgeo
  }

  /** The comprehension succeeds exactly when every row's zone can be read. */
  lemma {:induction false} ZonesOfRowsOk(rows: seq<Row>)
    ensures ZonesOfRows(rows).Ok? <==> forall i :: 0 <= i < |rows| ==> ZoneOfZonage(rows[i].zonage).Some?
    decreases |rows|
  {
    if rows != [] {
      var n := |rows| - 1;
      ZonesOfRowsOk(rows[..n]);
      assert forall i :: 0 <= i < n ==> rows[..n][i] == rows[i];
    }
  }

  /** A successful comprehension holds exactly the codes of the rows. */
  lemma {:induction false} ZonesOfRowsKeys(rows: seq<Row>)
    requires ZonesOfRows(rows).Ok?
    ensures ZonesOfRows(rows).value.Keys == Codes(rows)
    decreases |rows|
  {
    if rows != [] {
      var n := |rows| - 1;
      var front := rows[..n];
      ZonesOfRowsKeys(front);
      assert forall i :: 0 <= i < n ==> front[i] == rows[i];
      assert Codes(rows) == Codes(front) + {rows[n].codgeo} by {
        forall k | k in Codes(rows) ensures k in Codes(front) + {rows[n].codgeo} {
          var i :| 0 <= i < |rows| && rows[i].codgeo == k;
          if i < n {
            assert front[i].codgeo == k;
          }
        }
      }
    }
  }

  /** Each code has the zone of the last row that names it. */
  lemma {:induction false} ZonesOfRowsLast(rows: seq<Row>, i: int)
    requires ZonesOfRows(rows).Ok?
    requires 0 <= i < |rows| && LastOfCode(rows, i)
    ensures rows[i].codgeo in ZonesOfRows(rows).value
    ensures ZoneOfZonage(rows[i].zonage).Some?
    ensures ZonesOfRows(rows).value[rows[i].codgeo] == ZoneOfZonage(rows[i].zonage).value
    decreases |rows|
  {
    var n := |rows| - 1;
    if i < n {
      var front := rows[..n];
      assert front[i] == rows[i];
      assert LastOfCode(front, i) by {
        forall j | i < j < n ensures front[j].codgeo != front[i].codgeo {
          assert front[j] == rows[j];
        }
      }
      ZonesOfRowsLast(front, i);
      assert rows[n].codgeo != rows[i].codgeo;
    }
  }

  /** The loop over the subcommunes, as a fold from the first entry to the last. */
  function WithSubcommunes(m: map<string, int>, links: seq<Link>): Result<map<string, int>>
    decreases |links|
  {
    if links == [] then Ok(m)
    else if links[0].commune !in m then Err(MissingCommune(links[0].subcommune, links[0].commune))
    else WithSubcommunes(m[links[0].subcommune := m[links[0].commune]], links[1..])
  }

  /**
   * The loop of `preload_zone_apl` over the subcommune entries: each
   * subcommune gets the zone its parent has at that point; a parent missing
   * from the table stops the load.
   */
  method AddSubcommunes(zones: map<string, int>, links: seq<Link>) returns (r: Result<map<string, int>>)
    ensures r == WithSubcommunes(zones, links)
  {
    var m := zones;
    var i := 0;
    while i < |links|
      invariant 0 <= i <= |links|
      invariant WithSubcommunes(m, links[i..]) == WithSubcommunes(zones, links)
    {
      var link := links[i];
      assert links[i..][0] == link && links[i..][1..] == links[i + 1..];
      if link.commune !in m {
        return Err(MissingCommune(link.subcommune, link.commune));
      }
      m := m[link.subcommune := m[link.commune]];
      i := i + 1;
    }
    assert links[i..] == [];
    return Ok(m);
  }

  /** The map-building part of `preload_zone_apl`: the zoning rows, then the subcommunes. */
  method LoadZones(rows: seq<Row>, links: seq<Link>) returns (r: Result<map<string, int>>)
    ensures ZonesOfRows(rows).Err? ==> r == ZonesOfRows(rows)
    ensures ZonesOfRows(rows).Ok? ==> r == WithSubcommunes(ZonesOfRows(rows).value, links)
  {
    var zones := ZonesOfRows(rows);
    if zones.Err? {
      return zones;
    }
    r := AddSubcommunes(zones.value, links);
  }

  function Subcommunes(links: seq<Link>): set<string> {
    set i | 0 <= i < |links| :: links[i].subcommune
  }

  /** No code is both a subcommune and a parent, and no subcommune is listed twice, as in the subcommune file. */
  predicate Separate(links: seq<Link>) {
    (forall i, j :: 0 <= i < |links| && 0 <= j < |links| ==> links[i].commune != links[j].subcommune) &&
    (forall i, j :: 0 <= i < j < |links| ==> links[i].subcommune != links[j].subcommune)
  }

  lemma SeparateTail(links: seq<Link>)
    requires Separate(links) && links != []
    ensures Separate(links[1..])
    ensures links[0].subcommune !in Subcommunes(links[1..])
  {
    var tail := links[1..];
    forall k | k in Subcommunes(tail) ensures k != links[0].subcommune {
      var j :| 0 <= j < |tail| && tail[j].subcommune == k;
      assert tail[j] == links[j + 1];
    }
  }

  /** When no parent is itself a subcommune, the load succeeds exactly when every parent is in the table. */
  lemma {:induction false} SubcommunesOk(m: map<string, int>, links: seq<Link>)
    requires Separate(links)
    ensures WithSubcommunes(m, links).Ok? <==> forall i :: 0 <= i < |links| ==> links[i].commune in m
    decreases |links|
  {
    if links != [] {
      var l := links[0];
      var tail := links[1..];
      SeparateTail(links);
      assert forall i :: 0 <= i < |tail| ==> tail[i] == links[i + 1];
      if l.commune in m {
        var m' := m[l.subcommune := m[l.commune]];
        SubcommunesOk(m', tail);
        assert forall i :: 0 <= i < |tail| ==> tail[i].commune != l.subcommune;
      }
    }
  }

  /** Codes that are not subcommunes keep their zone, and the table gains no other code. */
  lemma {:induction false} SubcommunesKeep(m: map<string, int>, links: seq<Link>, k: string)
    requires WithSubcommunes(m, links).Ok? && k !in Subcommunes(links)
    ensures k in WithSubcommunes(m, links).value <==> k in m
    ensures k in m ==> WithSubcommunes(m, links).value[k] == m[k]
    decreases |links|
  {
    if links != [] {
      var tail := links[1..];
      assert k != links[0].subcommune;
      assert forall j :: 0 <= j < |tail| ==> tail[j] == links[j + 1];
      SubcommunesKeep(m[links[0].subcommune := m[links[0].commune]], tail, k);
    }
  }

  /** When parents and subcommunes are separate, every subcommune gets its parent's zone. */
  lemma {:induction false} SubcommunesInherit(m: map<string, int>, links: seq<Link>, i: int)
    requires Separate(links) && WithSubcommunes(m, links).Ok? && 0 <= i < |links|
    ensures links[i].commune in m
    ensures links[i].subcommune in WithSubcommunes(m, links).value
    ensures WithSubcommunes(m, links).value[links[i].subcommune] == m[links[i].commune]
    decreases |links|
  {
    var l := links[0];
    var tail := links[1..];
    SeparateTail(links);
    var m' := m[l.subcommune := m[l.commune]];
    if i == 0 {
      SubcommunesKeep(m', tail, l.subcommune);
    } else {
      assert tail[i - 1] == links[i];
      SubcommunesInherit(m', tail, i - 1);
      assert links[i].commune != l.subcommune;
    }
  }

  /** `zone_apl_by_depcom.get(depcom, 2)`. */
  function ZoneOf(zones: map<string, int>, depcom: string): (z: int)
    ensures depcom !in zones ==> z == 2
    ensures depcom in zones ==> z == zones[depcom]
  {
    if depcom in zones then zones[depcom] else 2
  }

  /** After loading, looking up a subcommune gives its parent's zone in the zoning file. */
  lemma LookupSubcommune(rows: seq<Row>, links: seq<Link>, i: int)
    requires Separate(links) && 0 <= i < |links|
    requires ZonesOfRows(rows).Ok? && WithSubcommunes(ZonesOfRows(rows).value, links).Ok?
    ensures ZoneOf(WithSubcommunes(ZonesOfRows(rows).value, links).value, links[i].subcommune) ==
            ZoneOf(ZonesOfRows(rows).value, links[i].commune)
  {
    SubcommunesInherit(ZonesOfRows(rows).value, links, i);
  }
}
