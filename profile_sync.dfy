/** The merge behind the cloud sync of user-authored bird profiles: the
  * cloud's list and the local list are merged by id, local entries winning,
  * and the merged list is pushed back when it holds more than the cloud has.
  *
  * The network, the JSON text format and the local database are outside the
  * model: the cloud's answer, the parser, the serialiser and whether a write
  * fails arrive as parameters. A list entry is `None` when it is `null` or
  * `undefined`; every other entry is taken to be a profile object. */
module ProfileSync {
  import opened Types

  /** One element of a profile list as the program sees it. */
  type Entry = Option<CustomBirdConfig>

  /** What the cloud's GET gave: the request threw, the server answered with
    * an error status, or it answered with a body. */
  datatype CloudResponse = Unreachable | Refused | Body(text: string)

  /** What `JSON.parse` made of a non-empty body: it threw, it gave a value
    * that is not a list (null, a number, an object...), or it gave a list. */
  datatype Parsed = Unparseable | NotAList | List(entries: seq<Entry>)

  /** The largest payload the cloud bucket is sent, in characters. */
  const MaxPayload: nat := 950000

  // ---------------------------------------------------------------------
  // What the merge is

  /** The entries the merge keeps: profiles with a non-empty id, in order. */
  function Keepable(entries: seq<Entry>): (r: seq<CustomBirdConfig>)
    ensures |r| <= |entries|
    ensures forall b :: b in r <==> Some(b) in entries && b.id != ""
  {
    if entries == [] then []
    else
      var n := |entries| - 1;
      assert entries == entries[..n] + [entries[n]];
      Keepable(entries[..n]) + (if entries[n].Some? && entries[n].value.id != "" then [entries[n].value] else [])
  }

  function IdsOf(bs: seq<CustomBirdConfig>): (ids: seq<string>)
    ensures |ids| == |bs| && forall i :: 0 <= i < |bs| ==> ids[i] == bs[i].id
  {
    seq(|bs|, i requires 0 <= i < |bs| => bs[i].id)
  }

  /** The ids in order of their first occurrence. */
  function FirstOccurrences(ids: seq<string>): (r: seq<string>)
  {
    if ids == [] then []
    else
      var n := |ids| - 1;
      var d := FirstOccurrences(ids[..n]);
      if ids[n] in d then d else d + [ids[n]]
  }

  /** The last profile with id `id`. */
  function LastWith(bs: seq<CustomBirdConfig>, id: string): (b: CustomBirdConfig)
    requires id in IdsOf(bs)
    ensures b in bs && b.id == id
  {
    var n := |bs| - 1;
    if bs[n].id == id then bs[n]
    else
      assert id in IdsOf(bs[..n]) by {
        var i :| 0 <= i < |bs| && IdsOf(bs)[i] == id;
        assert i < n && IdsOf(bs[..n])[i] == id;
      }
      LastWith(bs[..n], id)
  }

  /** The merge: one profile per id met in the cloud's list then the local
    * list, in order of first occurrence, each the last one given for that id. */
  function Merged(cloud: seq<Entry>, local: seq<Entry>): (r: seq<CustomBirdConfig>)
  {
    var all := Keepable(cloud) + Keepable(local);
    var ids := FirstOccurrences(IdsOf(all));
    FirstOccurrencesIn(IdsOf(all));
    seq(|ids|, i requires 0 <= i < |ids| => LastWith(all, ids[i]))
  }

  // ---------------------------------------------------------------------
  // Facts about first occurrences and last entries

  predicate DistinctIds(ids: seq<string>) {
    forall i, j :: 0 <= i < j < |ids| ==> ids[i] != ids[j]
  }

  /** First occurrences hold each id once, and exactly the ids given. */
  lemma {:induction false} FirstOccurrencesIn(ids: seq<string>)
    ensures forall x :: x in FirstOccurrences(ids) <==> x in ids
    ensures DistinctIds(FirstOccurrences(ids))
    ensures |FirstOccurrences(ids)| <= |ids|
  {
    if ids != [] {
      var n := |ids| - 1;
      assert ids == ids[..n] + [ids[n]];
      FirstOccurrencesIn(ids[..n]);
    }
  }

  /** First occurrences of `a + b` are those of `a`, then those ids of `b`
    * that `a` lacks, in the order `b` first has them. */
  lemma {:induction false} FirstOccurrencesAppend(a: seq<string>, b: seq<string>)
    ensures var r := FirstOccurrences(a + b);
      && |FirstOccurrences(a)| <= |r| && r[..|FirstOccurrences(a)|] == FirstOccurrences(a)
      && forall x :: x in r[|FirstOccurrences(a)|..] <==> x in b && x !in a
  {
    var fa := FirstOccurrences(a);
    var r := FirstOccurrences(a + b);
    FirstOccurrencesIn(a);
    FirstOccurrencesIn(a + b);
    if b == [] {
      assert a + b == a;
    } else {
      var n := |b| - 1;
      assert a + b == (a + b[..n]) + [b[n]];
      FirstOccurrencesAppend(a, b[..n]);
      var p := FirstOccurrences(a + b[..n]);
      FirstOccurrencesIn(a + b[..n]);
      assert r == if b[n] in p then p else p + [b[n]];
      assert r[..|fa|] == p[..|fa|];
      forall x
        ensures x in r[|fa|..] <==> x in b && x !in a
      {
        assert b == b[..n] + [b[n]];
        if x in r[|fa|..] {
          var k :| |fa| <= k < |r| && r[k] == x;
          if k < |p| {
            assert x in p[|fa|..];
          } else {
            assert x == b[n];
            assert x !in p;
          }
        }
        if x in b && x !in a {
          if x in b[..n] {
            assert x in p[|fa|..];
            var k :| |fa| <= k < |p| && p[k] == x;
            assert r[k] == x;
          } else {
            assert x == b[n] && x !in p;
            assert r[|p|] == x;
          }
        }
      }
    }
  }

  /** The last entry for an id of `b` in `a + b` is `b`'s. */
  lemma {:induction false} LastWithAppend(a: seq<CustomBirdConfig>, b: seq<CustomBirdConfig>, id: string)
    requires id in IdsOf(a + b)
    ensures id in IdsOf(b) ==> LastWith(a + b, id) == LastWith(b, id)
    ensures id !in IdsOf(b) ==> id in IdsOf(a) && LastWith(a + b, id) == LastWith(a, id)
  {
    if b == [] {
      assert a + b == a;
    } else {
      var n := |b| - 1;
      assert (a + b)[..|a + b| - 1] == a + b[..n];
      if b[n].id != id {
        assert id in IdsOf(a + b[..n]) by {
          var i :| 0 <= i < |a + b| && IdsOf(a + b)[i] == id;
          assert i < |a + b| - 1 && IdsOf(a + b[..n])[i] == id;
        }
        assert id in IdsOf(b) ==> id in IdsOf(b[..n]) by {
          if id in IdsOf(b) {
            var i :| 0 <= i < |b| && IdsOf(b)[i] == id;
            assert i < n && IdsOf(b[..n])[i] == id;
          }
        }
        assert id in IdsOf(b[..n]) ==> id in IdsOf(b) by {
          if id in IdsOf(b[..n]) {
            var i :| 0 <= i < n && IdsOf(b[..n])[i] == id;
            assert IdsOf(b)[i] == id;
          }
        }
        LastWithAppend(a, b[..n], id);
      }
    }
  }

  lemma IdIn(bs: seq<CustomBirdConfig>, b: CustomBirdConfig)
    requires b in bs
    ensures b.id in IdsOf(bs)
  {
    var i :| 0 <= i < |bs| && bs[i] == b;
    assert IdsOf(bs)[i] == b.id;
  }

  // ---------------------------------------------------------------------
  // What the merge promises

  /** The merged profiles have pairwise distinct, non-empty ids, and each is
    * one of the given profiles: null entries and entries without an id are
    * dropped, and nothing is made up. */
  lemma MergedWellFormed(cloud: seq<Entry>, local: seq<Entry>)
    ensures var r := Merged(cloud, local);
      && |r| <= |cloud| + |local|
      && (forall i, j :: 0 <= i < j < |r| ==> r[i].id != r[j].id)
      && (forall i :: 0 <= i < |r| ==> r[i].id != "" && (Some(r[i]) in cloud || Some(r[i]) in local))
  {
    var all := Keepable(cloud) + Keepable(local);
    FirstOccurrencesIn(IdsOf(all));
    var r := Merged(cloud, local);
    forall i | 0 <= i < |r|
      ensures r[i].id != "" && (Some(r[i]) in cloud || Some(r[i]) in local)
    {
      assert r[i] in all;
    }
  }

  /** Every id a kept profile has is merged, and the merged profile for an id
    * the local list gives is the local list's last one for it: local wins. A
    * profile whose id is only in the cloud's list is merged as the cloud has it. */
  lemma LocalWins(cloud: seq<Entry>, local: seq<Entry>, b: CustomBirdConfig)
    requires b.id != "" && (Some(b) in cloud || Some(b) in local)
    ensures exists i :: 0 <= i < |Merged(cloud, local)| && Merged(cloud, local)[i].id == b.id
    ensures forall i :: 0 <= i < |Merged(cloud, local)| && Merged(cloud, local)[i].id == b.id ==>
      if b.id in IdsOf(Keepable(local)) then Merged(cloud, local)[i] == LastWith(Keepable(local), b.id)
      else Merged(cloud, local)[i] == LastWith(Keepable(cloud), b.id)
  {
    var kc, kl := Keepable(cloud), Keepable(local);
    var all := kc + kl;
    var ids := FirstOccurrences(IdsOf(all));
    FirstOccurrencesIn(IdsOf(all));
    assert b in all;
    IdIn(all, b);
    var k :| 0 <= k < |ids| && ids[k] == b.id;
    assert Merged(cloud, local)[k].id == b.id;
    LastWithAppend(kc, kl, b.id);
  }

  /** The cloud's ids come first, in the cloud's order and each in its slot
    * even when the local list overrides it; the ids only the local list has
    * follow. */
  lemma CloudOrderFirst(cloud: seq<Entry>, local: seq<Entry>)
    ensures var r := Merged(cloud, local);
      var c := FirstOccurrences(IdsOf(Keepable(cloud)));
      && |c| <= |r|
      && (forall i :: 0 <= i < |c| ==> r[i].id == c[i])
      && (forall i :: |c| <= i < |r| ==> r[i].id in IdsOf(Keepable(local)) && r[i].id !in IdsOf(Keepable(cloud)))
  {
    var kc, kl := Keepable(cloud), Keepable(local);
    var all := kc + kl;
    assert IdsOf(all) == IdsOf(kc) + IdsOf(kl);
    FirstOccurrencesAppend(IdsOf(kc), IdsOf(kl));
    FirstOccurrencesIn(IdsOf(all));
    var ids := FirstOccurrences(IdsOf(all));
    var c := FirstOccurrences(IdsOf(kc));
    var r := Merged(cloud, local);
    forall i | 0 <= i < |c|
      ensures r[i].id == c[i]
    {
      assert ids[..|c|][i] == ids[i];
    }
    forall i | |c| <= i < |r|
      ensures r[i].id in IdsOf(kl) && r[i].id !in IdsOf(kc)
    {
      assert ids[|c|..][i - |c|] == ids[i];
    }
  }

  // ---------------------------------------------------------------------
  // The merge as the program runs it

  /** The merge step of syncBirdsWithCloud: a map from id to profile is filled
    * from the cloud's list, then from the local list (a later profile replaces
    * an earlier one in its slot; a new id takes the next slot), and its values
    * are read out in slot order. */
  method MergeProfiles(cloud: seq<Entry>, local: seq<Entry>) returns (merged: seq<CustomBirdConfig>)
    ensures merged == Merged(cloud, local)
  {
    var order: seq<string> := [];
    var byId: map<string, CustomBirdConfig> := map[];
    order, byId := PutAll(order, byId, [], cloud);
    assert [] + Keepable(cloud) == Keepable(cloud);
    order, byId := PutAll(order, byId, Keepable(cloud), local);
    merged := ReadOut(order, byId, Keepable(cloud) + Keepable(local));
  }

  /** One `forEach` of the merge: every entry of `entries` is put in the map. */
  method PutAll(order: seq<string>, byId: map<string, CustomBirdConfig>, ghost before: seq<CustomBirdConfig>,
                entries: seq<Entry>)
    returns (order': seq<string>, byId': map<string, CustomBirdConfig>)
    requires Holds(order, byId, before)
    ensures Holds(order', byId', before + Keepable(entries))
  {
    order', byId' := order, byId;
    assert before + Keepable(entries[..0]) == before;
    for i := 0 to |entries|
      invariant Holds(order', byId', before + Keepable(entries[..i]))
    {
      order', byId' := Put(order', byId', before + Keepable(entries[..i]), entries[i]);
      KeepableGrows(before, entries, i);
    }
    assert entries[..|entries|] == entries;
  }

  lemma KeepableGrows(before: seq<CustomBirdConfig>, entries: seq<Entry>, i: nat)
    requires i < |entries|
    ensures before + Keepable(entries[..i + 1]) ==
      before + Keepable(entries[..i]) + (if entries[i].Some? && entries[i].value.id != "" then [entries[i].value] else [])
  {
    assert entries[..i + 1][..i] == entries[..i];
  }

  /** `Array.from(birdMap.values())`: the profiles in slot order. */
  method ReadOut(order: seq<string>, byId: map<string, CustomBirdConfig>, ghost all: seq<CustomBirdConfig>)
    returns (values: seq<CustomBirdConfig>)
    requires Holds(order, byId, all)
    ensures values == seq(|order|, i requires 0 <= i < |order| => LastWith(all, order[i]))
  {
    FirstOccurrencesIn(IdsOf(all));
    values := [];
    for k := 0 to |order|
      invariant |values| == k && forall j :: 0 <= j < k ==> values[j] == LastWith(all, order[j])
    {
      values := values + [byId[order[k]]];
    }
  }

  /** The map of the merge holds the profiles `all`: its slots are the ids in
    * order of first occurrence, each mapped to the last profile given for it. */
  ghost predicate Holds(order: seq<string>, byId: map<string, CustomBirdConfig>, all: seq<CustomBirdConfig>) {
    && order == FirstOccurrences(IdsOf(all))
    && (forall id :: id in order <==> id in IdsOf(all))
    && (forall id :: id in byId <==> id in IdsOf(all))
    && (forall id :: id in byId && id in IdsOf(all) ==> byId[id] == LastWith(all, id))
  }

  /** `birdMap.set(b.id, b)` for an entry that has a profile with an id. */
  method Put(order: seq<string>, byId: map<string, CustomBirdConfig>, ghost all: seq<CustomBirdConfig>, e: Entry)
    returns (order': seq<string>, byId': map<string, CustomBirdConfig>)
    requires Holds(order, byId, all)
    ensures Holds(order', byId', all + (if e.Some? && e.value.id != "" then [e.value] else []))
  {
    if e.Some? && e.value.id != "" {
      var b := e.value;
      if b.id in byId {
        order' := order;
      } else {
        order' := order + [b.id];
      }
      byId' := byId[b.id := b];
      HoldsSnoc(order, byId, all, b);
    } else {
      assert all + [] == all;
      order', byId' := order, byId;
    }
  }

  /** Setting a profile in the map keeps it holding the profiles given so far,
    * and that profile after them. */
  lemma HoldsSnoc(order: seq<string>, byId: map<string, CustomBirdConfig>, all: seq<CustomBirdConfig>, b: CustomBirdConfig)
    requires Holds(order, byId, all)
    ensures Holds(if b.id in byId then order else order + [b.id], byId[b.id := b], all + [b])
  {
    var all' := all + [b];
    var n := |all|;
    assert all'[..n] == all;
    assert IdsOf(all')[..n] == IdsOf(all);
    assert IdsOf(all') == IdsOf(all) + [b.id];
    assert FirstOccurrences(IdsOf(all')) == if b.id in order then order else order + [b.id];
    assert forall id :: id in IdsOf(all') <==> id in IdsOf(all) || id == b.id;
    forall id | id in IdsOf(all') && id != b.id
      ensures LastWith(all', id) == LastWith(all, id)
    {
    }
  }

  // ---------------------------------------------------------------------
  // The sync around the merge

  /** The cloud's list, or None when reading it throws: the GET threw, or the
    * body parsed to something that is not a list (whose `forEach` throws). An
    * error status, an empty body and a body that does not parse all count as
    * an empty list. */
  function CloudList(response: CloudResponse, parse: string -> Parsed): (r: Option<seq<Entry>>)
    ensures r.None? <==> response.Unreachable? || (response.Body? && response.text != "" && parse(response.text).NotAList?)
    ensures response.Refused? || (response.Body? && (response.text == "" || parse(response.text).Unparseable?)) ==>
      r == Some([])
    ensures response.Body? && response.text != "" && parse(response.text).List? ==> r == Some(parse(response.text).entries)
  {
    match response
    case Unreachable => None
    case Refused => Some([])
    case Body(text) =>
      if text == "" then Some([])
      else match parse(text)
        case Unparseable => Some([])
        case NotAList => None
        case List(entries) => Some(entries)
  }

  /** syncBirdsWithCloud. The cloud's list is read (`response`, parsed by
    * `parse`), merged with the local list, pushed back as `stringify` writes
    * it when the merge or the local list is longer than the cloud's list and
    * the payload is at most 950000 characters, and every merged profile is
    * saved locally. Any throw returns the local list as given: reading the
    * cloud, a null local entry (reading its id for the unused `localIds`),
    * the push (`postThrows`) or a save (`saveThrows`). `posted` is the payload
    * of the push, when one is attempted. */
  method SyncBirdsWithCloud(local: seq<Entry>, response: CloudResponse, parse: string -> Parsed,
                            stringify: seq<CustomBirdConfig> -> string, postThrows: bool, saveThrows: bool)
    returns (result: seq<Entry>, posted: Option<string>)
    ensures CloudList(response, parse).None? ==> result == local && posted.None?
    ensures CloudList(response, parse).Some? && None in local ==> result == local && posted.None?
    ensures CloudList(response, parse).Some? && None !in local ==>
      var cloud := CloudList(response, parse).value;
      var merged := Merged(cloud, local);
      && posted == (if (|merged| > |cloud| || |local| > |cloud|) && |stringify(merged)| <= MaxPayload
                    then Some(stringify(merged)) else None)
      && result == (if (posted.Some? && postThrows) || (merged != [] && saveThrows) then local
                    else seq(|merged|, i requires 0 <= i < |merged| => Some(merged[i])))
  {
    posted := None;
    var cloudBirds := CloudList(response, parse);
    if cloudBirds.None? {
      return local, None;
    }
    var cloud := cloudBirds.value;
    var merged := MergeProfiles(cloud, local);
    if None in local {
      return local, None;
    }
    var hasNewData := |merged| > |cloud| || |local| > |cloud|;
    if hasNewData {
      var payload := stringify(merged);
      if |payload| <= MaxPayload {
        posted := Some(payload);
        if postThrows {
          return local, posted;
        }
      }
    }
    if merged != [] && saveThrows {
      return local, posted;
    }
    result := seq(|merged|, i requires 0 <= i < |merged| => Some(merged[i]));
  }
}
