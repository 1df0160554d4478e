/** `CSVHandler` (csv_handler.py): the favorites store as a sequence of
    records in file order. Reading and writing the file are replaced by the
    sequence itself; the generated ID and creation date are given. */
module Favorites {
  import opened Common
  import opened PyStr

  /** One row, with exactly the seven columns of the file. */
  datatype Record = Record(
    id: string,
    titulo: string,
    personaje: string,
    promptEs: string,
    promptEn: string,
    promptVideo: string,
    fechaCreacion: string)

  /** The column values in column order (`record.values()`). */
  function Values(r: Record): (vs: seq<string>)
    ensures |vs| == 7
  {
    [r.id, r.titulo, r.personaje, r.promptEs, r.promptEn, r.promptVideo, r.fechaCreacion]
  }

  const NotFound: string := "Prompt no encontrado"

  // ------------------------------------------------------------ add

  /** `add_prompt`: the new record goes at the end; a missing English
      prompt is stored as "". */
  function Add(store: seq<Record>, newId: string, date: string, titulo: string, personaje: string,
               promptEs: string, promptVideo: string, promptEn: Option<string>): (r: seq<Record>)
    ensures |r| == |store| + 1 && r[..|store|] == store
    ensures r[|store|].id == newId && r[|store|].fechaCreacion == date
    ensures r[|store|].titulo == titulo && r[|store|].personaje == personaje
    ensures r[|store|].promptEs == promptEs && r[|store|].promptVideo == promptVideo
    ensures r[|store|].promptEn == (if promptEn.Some? then promptEn.value else "")
  {
    store + [Record(newId, titulo, personaje, promptEs, promptEn.GetOr(""), promptVideo, date)]
  }

  // ------------------------------------------------------------ get by id

  /** Some record of the store has this ID. */
  predicate HasId(store: seq<Record>, id: string) {
    exists i :: 0 <= i < |store| && store[i].id == id
  }

  /** `get_prompt_by_id`: the first record with the ID, or None. */
  function GetById(store: seq<Record>, id: string): (r: Option<Record>)
    ensures r.None? <==> !HasId(store, id)
    ensures r.Some? ==> exists i :: 0 <= i < |store| && store[i] == r.value && r.value.id == id
                                  && forall j :: 0 <= j < i ==> store[j].id != id
  {
    match FirstIndex(store, id, 0)
    case Some(i) => Some(store[i])
    case None => None
  }

  /** The index of the first record with the ID at or after `from`. */
  function FirstIndex(store: seq<Record>, id: string, from: nat): (r: Option<nat>)
    requires from <= |store|
    ensures r.Some? ==> from <= r.value < |store| && store[r.value].id == id
    ensures r.Some? ==> forall j :: from <= j < r.value ==> store[j].id != id
    ensures r.None? ==> forall j :: from <= j < |store| ==> store[j].id != id
    decreases |store| - from
  {
    if from == |store| then None
    else if store[from].id == id then Some(from)
    else FirstIndex(store, id, from + 1)
  }

  /** A record added under a fresh ID is what looking that ID up finds. */
  lemma AddThenGet(store: seq<Record>, newId: string, date: string, titulo: string, personaje: string,
                   promptEs: string, promptVideo: string, promptEn: Option<string>)
    requires !HasId(store, newId)
    ensures var s := Add(store, newId, date, titulo, personaje, promptEs, promptVideo, promptEn);
      GetById(s, newId) == Some(s[|store|])
  {
    var s := Add(store, newId, date, titulo, personaje, promptEs, promptVideo, promptEn);
    var r := GetById(s, newId);
    assert r.Some?;
    var i :| 0 <= i < |s| && s[i] == r.value && r.value.id == newId;
    if i < |store| {
      assert store[i] == s[i];
    }
  }

  // ------------------------------------------------------------ delete

  /** The records whose ID differs, in order (the list comprehension). */
  function Keep(store: seq<Record>, id: string): (r: seq<Record>)
    ensures |r| <= |store|
    ensures forall k :: 0 <= k < |r| ==> r[k].id != id
    ensures forall k :: 0 <= k < |store| && store[k].id != id ==> store[k] in r
  {
    if |store| == 0 then []
    else if store[0].id == id then Keep(store[1..], id)
    else [store[0]] + Keep(store[1..], id)
  }

  /** How many records carry the ID. */
  function CountId(store: seq<Record>, id: string): nat {
    if |store| == 0 then 0 else (if store[0].id == id then 1 else 0) + CountId(store[1..], id)
  }

  /** `delete_prompt`: the store without every record of that ID, or the
      not-found error when there was none, in which case nothing is
      written. */
  function Delete(store: seq<Record>, id: string): (r: Result<seq<Record>>)
    ensures r.Failure? <==> !HasId(store, id)
    ensures r.Failure? ==> r.error == NotFound
    ensures r.Success? ==> r.value == Keep(store, id)
  {
    var kept := Keep(store, id);
    KeepLength(store, id);
    if |kept| == |store| then Failure(NotFound) else Success(kept)
  }

  /** Deleting removes exactly the records with the ID. */
  lemma {:induction false} KeepLength(store: seq<Record>, id: string)
    ensures |Keep(store, id)| + CountId(store, id) == |store|
    ensures CountId(store, id) == 0 <==> !HasId(store, id)
  {
    if |store| > 0 {
      KeepLength(store[1..], id);
      if HasId(store[1..], id) {
        var i :| 0 <= i < |store[1..]| && store[1..][i].id == id;
        assert store[i + 1].id == id;
      }
      if HasId(store, id) && store[0].id != id {
        var i :| 0 <= i < |store| && store[i].id == id;
        assert store[1..][i - 1].id == id;
      }
    }
  }

  /** After a delete, looking the ID up finds nothing. */
  lemma DeleteThenGet(store: seq<Record>, id: string)
    requires Delete(store, id).Success?
    ensures GetById(Delete(store, id).value, id).None?
  {
  }

  /** Deleting keeps the other records in their order: deleting an ID
      from the store with one more record at the end is deleting it from
      the store and then keeping that record unless it has the ID. */
  lemma KeepAppend(store: seq<Record>, r: Record, id: string)
    ensures Keep(store + [r], id) == Keep(store, id) + (if r.id == id then [] else [r])
  {
    if |store| > 0 {
      assert (store + [r])[1..] == store[1..] + [r];
      KeepAppend(store[1..], r, id);
    } else {
      assert store + [r] == [r];
    }
  }

  // ------------------------------------------------------------ search

  /** Some non-empty field of the record contains `q` once lower-cased. */
  predicate FieldHit(r: Record, q: string) {
    exists k :: 0 <= k < 7 && Truthy(Values(r)[k]) && Contains(Lower(Values(r)[k]), q)
  }

  /** The record matches the query case-insensitively. */
  predicate Matches(r: Record, query: string) {
    FieldHit(r, Lower(query))
  }

  /** The matching records in store order: the reference for the search. */
  function Matching(store: seq<Record>, query: string): (r: seq<Record>)
    ensures |r| <= |store|
  {
    if |store| == 0 then []
    else (if Matches(store[0], query) then [store[0]] else []) + Matching(store[1..], query)
  }

  /** The search result holds exactly the matching records. */
  lemma {:induction false} MatchingMembers(store: seq<Record>, query: string, x: Record)
    ensures x in Matching(store, query) <==> x in store && Matches(x, query)
  {
    if |store| > 0 {
      MatchingMembers(store[1..], query, x);
      assert store == [store[0]] + store[1..];
    }
  }

  /** The reference, one record further along. */
  lemma {:induction false} MatchingAppend(store: seq<Record>, x: Record, query: string)
    ensures Matching(store + [x], query) == Matching(store, query) + (if Matches(x, query) then [x] else [])
  {
    var last := if Matches(x, query) then [x] else [];
    if |store| > 0 {
      var head := if Matches(store[0], query) then [store[0]] else [];
      assert (store + [x])[0] == store[0];
      assert (store + [x])[1..] == store[1..] + [x];
      MatchingAppend(store[1..], x, query);
      assert Matching(store + [x], query) == head + (Matching(store[1..], query) + last);
      assert Matching(store, query) == head + Matching(store[1..], query);
    } else {
      assert store + [x] == [x];
      assert Matching([x], query) == last + Matching([], query);
    }
  }

  /** Whether some field of the record matches, scanning the fields in
      column order and stopping at the first that does. */
  method AnyFieldMatches(r: Record, q: string) returns (found: bool)
    ensures found <==> FieldHit(r, q)
  {
    var values := Values(r);
    var k := 0;
    found := false;
    while k < |values|
      invariant 0 <= k <= |values|
      invariant forall j :: 0 <= j < k ==> !(Truthy(values[j]) && Contains(Lower(values[j]), q))
    {
      if Truthy(values[k]) && Contains(Lower(values[k]), q) {
        found := true;
        return;
      }
      k := k + 1;
    }
  }

  /** `search_prompts`: each record at most once, as soon as one of its
      fields matches. */
  method Search(store: seq<Record>, query: string) returns (results: seq<Record>)
    ensures results == Matching(store, query)
  {
    var q := Lower(query);
    results := [];
    var i := 0;
    while i < |store|
      invariant 0 <= i <= |store|
      invariant results == Matching(store[..i], query)
    {
      var hit := AnyFieldMatches(store[i], q);
      assert store[..i + 1] == store[..i] + [store[i]];
      MatchingAppend(store[..i], store[i], query);
      if hit {
        results := results + [store[i]];
      }
      i := i + 1;
    }
    assert store[..i] == store;
  }

  // ------------------------------------------------------------ update

  /** The fields an update may set; absent or empty ones are left alone. */
  datatype Changes = Changes(titulo: Option<string>, personaje: Option<string>, promptEs: Option<string>,
                             promptEn: Option<string>, promptVideo: Option<string>)

  /** `if value:` on an optional argument. */
  predicate Given(v: Option<string>) {
    v.Some? && Truthy(v.value)
  }

  function Pick(v: Option<string>, current: string): string {
    if Given(v) then v.value else current
  }

  function Apply(r: Record, c: Changes): (u: Record)
    ensures u.id == r.id && u.fechaCreacion == r.fechaCreacion
  {
    r.(titulo := Pick(c.titulo, r.titulo), personaje := Pick(c.personaje, r.personaje),
       promptEs := Pick(c.promptEs, r.promptEs), promptEn := Pick(c.promptEn, r.promptEn),
       promptVideo := Pick(c.promptVideo, r.promptVideo))
  }

  /** `update_prompt`: the first record with the ID takes the given
      fields; an unknown ID is the not-found error. */
  function Update(store: seq<Record>, id: string, c: Changes): (r: Result<seq<Record>>)
    ensures r.Failure? <==> !HasId(store, id)
    ensures r.Failure? ==> r.error == NotFound
    ensures r.Success? ==> |r.value| == |store|
  {
    match FirstIndex(store, id, 0)
    case None => Failure(NotFound)
    case Some(i) => Success(store[i := Apply(store[i], c)])
  }

  /** An update changes only the first record with the ID: every other
      record is as it was; that one keeps its ID and creation date, takes
      every given field and keeps every other field. */
  lemma UpdateOnlyFirst(store: seq<Record>, id: string, c: Changes)
    requires HasId(store, id)
    ensures var s := Update(store, id, c).value;
      exists i :: 0 <= i < |store| && store[i].id == id
        && (forall j :: 0 <= j < i ==> store[j].id != id)
        && (forall j :: 0 <= j < |store| && j != i ==> s[j] == store[j])
        && s[i].id == id && s[i].fechaCreacion == store[i].fechaCreacion
        && s[i].titulo == (if Given(c.titulo) then c.titulo.value else store[i].titulo)
        && s[i].personaje == (if Given(c.personaje) then c.personaje.value else store[i].personaje)
        && s[i].promptEs == (if Given(c.promptEs) then c.promptEs.value else store[i].promptEs)
        && s[i].promptEn == (if Given(c.promptEn) then c.promptEn.value else store[i].promptEn)
        && s[i].promptVideo == (if Given(c.promptVideo) then c.promptVideo.value else store[i].promptVideo)
  {
    var i := FirstIndex(store, id, 0).value;
    var s := Update(store, id, c).value;
    assert s == store[i := Apply(store[i], c)];
  }

  /** The first record with the ID is found wherever the search starts
      before it. */
  lemma {:induction false} FirstIndexIs(store: seq<Record>, id: string, from: nat, i: nat)
    requires from <= i < |store| && store[i].id == id
    requires forall j :: from <= j < i ==> store[j].id != id
    ensures FirstIndex(store, id, from) == Some(i)
    decreases i - from
  {
    if from < i {
      FirstIndexIs(store, id, from + 1, i);
    }
  }

  /** After an update, looking the ID up finds the updated record. */
  lemma UpdateThenGet(store: seq<Record>, id: string, c: Changes)
    requires HasId(store, id)
    ensures GetById(Update(store, id, c).value, id) == Some(Apply(GetById(store, id).value, c))
  {
    var i := FirstIndex(store, id, 0).value;
    var s := store[i := Apply(store[i], c)];
    assert Update(store, id, c).value == s;
    FirstIndexIs(s, id, 0, i);
  }

  // ------------------------------------------------------------ stats

  /** The `Personaje` column in store order. */
  function Personajes(store: seq<Record>): (ps: seq<string>)
    ensures |ps| == |store|
    ensures forall k :: 0 <= k < |store| ==> ps[k] == store[k].personaje
  {
    if |store| == 0 then [] else [store[0].personaje] + Personajes(store[1..])
  }

  datatype Stats = Stats(total: nat, personajes: map<string, nat>, lastDate: Option<string>)

  /** The number of occurrences of each name, counted from the front. */
  function Tally(ps: seq<string>): map<string, nat>
  {
    if |ps| == 0 then map[]
    else
      var m := Tally(ps[..|ps| - 1]);
      var p := ps[|ps| - 1];
      m[p := (if p in m then m[p] else 0) + 1]
  }

  /** The tally is the multiset of the names: its keys are the names that
      occur and each count is the multiplicity. */
  lemma {:induction false} TallyCounts(ps: seq<string>)
    ensures forall p :: p in Tally(ps) <==> p in multiset(ps)
    ensures forall p :: p in Tally(ps) ==> Tally(ps)[p] == multiset(ps)[p]
  {
    if |ps| > 0 {
      var init := ps[..|ps| - 1];
      TallyCounts(init);
      assert ps == init + [ps[|ps| - 1]];
    }
  }

  /** `get_stats`: the record count, the number of records per character,
      and the creation date of the last record. The counts are those of the
      multiset of the character column, so they add up to the total. */
  method GetStats(store: seq<Record>) returns (st: Stats)
    ensures st.total == |store| == |multiset(Personajes(store))|
    ensures forall p :: p in st.personajes <==> p in multiset(Personajes(store))
    ensures forall p :: p in st.personajes ==> st.personajes[p] == multiset(Personajes(store))[p]
    ensures st.lastDate == (if |store| == 0 then None else Some(store[|store| - 1].fechaCreacion))
  {
    var ps := Personajes(store);
    var counts: map<string, nat> := map[];
    var i := 0;
    while i < |store|
      invariant 0 <= i <= |store|
      invariant counts == Tally(ps[..i])
    {
      var p := store[i].personaje;
      assert ps[..i + 1][..i] == ps[..i];
      counts := counts[p := (if p in counts then counts[p] else 0) + 1];
      i := i + 1;
    }
    assert ps[..i] == ps;
    TallyCounts(ps);
    var last := if |store| == 0 then None else Some(store[|store| - 1].fechaCreacion);
    st := Stats(|store|, counts, last);
  }
}
