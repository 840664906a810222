/** What the ledger insert of a release says: which columns it fills, and with what. */
module ReleaseLedger {
  import opened Text
  import opened Scanner
  import opened Fragments
  import opened Release

  const FILLED := {"version", "name", "statements"}

  /** The filled columns as they come in the given list: places is where each of them stands there. */
  predicate Picks(columns: seq<string>, places: seq<nat>, keys: seq<string>) {
    && |places| == |keys|
    && (forall i, j | 0 <= i < j < |places| :: places[i] < places[j])
    && (forall k | 0 <= k < |keys| :: places[k] < |columns| && keys[k] == columns[places[k]] && keys[k] in FILLED)
    && forall i | 0 <= i < |columns| && columns[i] in FILLED :: i in places
  }

  /** The text is a quoted value: doubled quotes inside, nothing after the closing one. */
  predicate Quotes(text: string, value: string) {
    && |text| >= 2 && text[0] == '\'' && QuoteEnd(text[1..], '\'') == Some(|text| - 1)
    && Undouble(text[1..|text| - 1]) == value
  }

  predicate FilledWith(key: string, text: string, migration: string, version: string, name: string) {
    && (key == "version" ==> Quotes(text, version))
    && (key == "name" ==> Quotes(text, name))
    && (key == "statements" ==>
          |text| > 15 && text[..6] == "ARRAY[" && text[|text| - 9..] == "]::text[]"
          && Quotes(text[6..|text| - 9], migration))
  }

  /** The parts separated by commas. */
  function Listed(parts: seq<string>): string {
    if parts == [] then ""
    else if |parts| == 1 then parts[0]
    else Listed(parts[..|parts| - 1]) + "," + parts[|parts| - 1]
  }

  lemma {:induction false} ListedFirst(part: string, parts: seq<string>)
    requires parts != []
    ensures Listed([part] + parts) == part + "," + Listed(parts)
  {
    var all := [part] + parts;
    if |parts| == 1 {
      assert all[..1] == [part] && all[1] == parts[0];
    } else {
      assert all[..|all| - 1] == [part] + parts[..|parts| - 1] && all[|all| - 1] == parts[|parts| - 1];
      ListedFirst(part, parts[..|parts| - 1]);
      var x, z := Listed(parts[..|parts| - 1]), parts[|parts| - 1];
      hide Listed;
      assert part + "," + (x + "," + z) == part + "," + x + "," + z;
    }
  }

  lemma {:induction false} JoinedIsListed(parts: seq<string>)
    ensures JoinComma(parts) == Listed(parts)
  {
    if |parts| > 1 {
      JoinedIsListed(parts[1..]);
      assert [parts[0]] + parts[1..] == parts;
      ListedFirst(parts[0], parts[1..]);
    }
  }

  lemma {:induction false} SelectedPicks(columns: seq<string>) returns (places: seq<nat>)
    ensures Picks(columns, places, Selected(columns))
  {
    if columns == [] {
      places := [];
    } else {
      var p, last := columns[..|columns| - 1], columns[|columns| - 1];
      places := SelectedPicks(p);
      SelectedLast(p, last);
      assert p + [last] == columns;
      if last in FILLED {
        PicksLast(p, last, places, Selected(p));
        places := places + [|p|];
      } else {
        PicksOther(p, last, places, Selected(p));
      }
    }
  }

  lemma {:induction false} SelectedLast(p: seq<string>, last: string)
    ensures Selected(p + [last]) == Selected(p) + if last in FILLED then [last] else []
  {
    var all := p + [last];
    if p == [] {
      assert all[1..] == [];
    } else {
      assert all[1..] == p[1..] + [last];
      SelectedLast(p[1..], last);
    }
  }

  lemma PicksLast(p: seq<string>, last: string, places: seq<nat>, keys: seq<string>)
    requires Picks(p, places, keys) && last in FILLED
    ensures Picks(p + [last], places + [|p|], keys + [last])
  {
    hide FILLED;
    var more := places + [|p|];
    assert more[|places|] == |p|;
    forall i | 0 <= i < |p + [last]| && (p + [last])[i] in FILLED
      ensures i in more
    {
      if i < |p| {
        assert p[i] in FILLED && i in places;
      }
    }
  }

  lemma PicksOther(p: seq<string>, last: string, places: seq<nat>, keys: seq<string>)
    requires Picks(p, places, keys) && last !in FILLED
    ensures Picks(p + [last], places, keys)
  {
    hide FILLED;
    forall i | 0 <= i < |p + [last]| && (p + [last])[i] in FILLED
      ensures i in places
    {
      assert i < |p| && p[i] in FILLED;
    }
  }

  lemma LiteralQuotes(v: string)
    ensures Quotes(Literal(v), v)
  {
    LiteralScans(v, "");
    DoubledCloses(v, "");
    var t := Literal(v);
    assert t + "" == t && Double(v) + "'" + "" == t[1..];
  }

  lemma ValueFills(key: string, migration: string, version: string, name: string)
    requires key in FILLED
    ensures FilledWith(key, ValueOf(key, migration, version, name), migration, version, name)
  {
    LiteralQuotes(version);
    LiteralQuotes(name);
    LiteralQuotes(migration);
    hide Literal, Quotes;
    if key == "statements" {
      var t, q := ValueOf(key, migration, version, name), Literal(migration);
      assert |q| >= 2 by { LiteralLong(migration); }
      assert t[6..|t| - 9] == q;
    }
  }

  lemma LiteralLong(v: string)
    ensures |Literal(v)| >= 2
  {
  }

  /** The insert fills exactly those of its three columns that the ledger has, in the ledger's order: the version and
      the name with the quoted values, the statements with an array of the quoted migration text. */
  lemma LedgerRow(migration: string, columns: seq<string>, version: string, name: string)
    returns (places: seq<nat>, keys: seq<string>, values: seq<string>)
    ensures Picks(columns, places, keys) && |values| == |keys|
    ensures forall k | 0 <= k < |keys| :: FilledWith(keys[k], values[k], migration, version, name)
    ensures LedgerInsert(migration, columns, version, name)
         == "INSERT INTO supabase_migrations." + "schema_migrations (" + Listed(keys) + ") VALUES (" + Listed(values)
            + ");\n"
  {
    keys := Selected(columns);
    places := SelectedPicks(columns);
    values := Values(keys, migration, version, name);
    JoinedIsListed(keys);
    JoinedIsListed(values);
    hide Selected, ValueOf, FilledWith, JoinComma, Listed;
    forall k | 0 <= k < |keys|
      ensures FilledWith(keys[k], values[k], migration, version, name)
    {
      ValueFills(keys[k], migration, version, name);
    }
  }
}
