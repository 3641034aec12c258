/**
 Keyed creation on the server: the look-up by idempotency key, the unique constraint behind it, and
 the recovery of a creation that loses the race between the two. Sales, purchases, sales invoices,
 journal entries and stock movements are all created this way, inside one tenant.
 */
module KeyedCreate {
  import opened Wrappers

  type Key = string
  type Payload = string

  /** A committed document; only a creation that came with a key carries one. */
  datatype Doc = Doc(key: Option<Key>, payload: Payload)

  predicate HasKey(docs: seq<Doc>, key: Key) {
    exists i | 0 <= i < |docs| :: docs[i].key == Some(key)
  }

  /** The unique constraint on (tenant, key): missing keys never clash. */
  ghost predicate UniqueKeys(docs: seq<Doc>) {
    forall i, j | 0 <= i < j < |docs| && docs[i].key.Some? :: docs[i].key != docs[j].key
  }

  function Copies(docs: seq<Doc>, key: Key): nat {
    if docs == [] then 0
    else Copies(docs[..|docs| - 1], key) + if docs[|docs| - 1].key == Some(key) then 1 else 0
  }

  lemma {:induction false} CopiesZero(docs: seq<Doc>, key: Key)
    ensures Copies(docs, key) == 0 <==> !HasKey(docs, key)
  {
    if docs == [] {
    } else {
      var init := docs[..|docs| - 1];
      CopiesZero(init, key);
      if HasKey(init, key) {
        var i :| 0 <= i < |init| && init[i].key == Some(key);
        assert docs[i].key == Some(key);
      }
      if HasKey(docs, key) && docs[|docs| - 1].key != Some(key) {
        var i :| 0 <= i < |docs| && docs[i].key == Some(key);
        assert init[i].key == Some(key);
      }
    }
  }

  /** Under the unique constraint a key names at most one document. */
  lemma {:induction false} AtMostOneCopy(docs: seq<Doc>, key: Key)
    requires UniqueKeys(docs)
    ensures Copies(docs, key) == if HasKey(docs, key) then 1 else 0
  {
    if docs == [] {
    } else {
      var init := docs[..|docs| - 1];
      AtMostOneCopy(init, key);
      CopiesZero(docs, key);
      CopiesZero(init, key);
      if HasKey(init, key) {
        var i :| 0 <= i < |init| && init[i].key == Some(key);
        assert docs[i].key == Some(key);
      }
    }
  }

  lemma UniqueAfterInsert(docs: seq<Doc>, doc: Doc)
    requires UniqueKeys(docs) && (doc.key.Some? ==> !HasKey(docs, doc.key.value))
    ensures UniqueKeys(docs + [doc])
  {
  }

  datatype CreateResult = Created(index: nat) | Replayed(index: nat) | Refused | DatabaseError

  /** The position of the first document under the key. */
  function FindKey(docs: seq<Doc>, key: Key): (i: nat)
    requires HasKey(docs, key)
    ensures i < |docs| && docs[i].key == Some(key)
    ensures forall j | 0 <= j < i :: docs[j].key != Some(key)
  {
    if docs[0].key == Some(key) then 0
    else
      assert HasKey(docs[1..], key) by {
        var i :| 0 <= i < |docs| && docs[i].key == Some(key);
        assert docs[1..][i - 1].key == Some(key);
      }
      1 + FindKey(docs[1..], key)
  }

  /** The look-up at the start of a creation: a key that is there is answered at once. */
  predicate LooksUp(docs: seq<Doc>, key: Option<Key>) {
    key.Some? && HasKey(docs, key.value)
  }

  /** The insert at its end, under the unique constraint. */
  function InsertDoc(docs: seq<Doc>, key: Option<Key>, payload: Payload): seq<Doc> {
    if LooksUp(docs, key) then docs else docs + [Doc(key, payload)]
  }

  /**
   A creation. `acceptable` is the outcome of the checks on customer, products or accounts, which are
   made only after the look-up; `interim` is what other transactions commit between the look-up and the
   insert; `survives` says whether the database lets a transaction read on after a unique violation
   (PostgreSQL does not). The body of the first creation under a key is the one kept.
   */
  function CreateDoc(docs: seq<Doc>, key: Option<Key>, payload: Payload, acceptable: bool, interim: seq<Doc>, survives: bool)
    : (seq<Doc>, CreateResult)
  {
    if LooksUp(docs, key) then (docs, Replayed(FindKey(docs, key.value)))
    else if !acceptable then (docs, Refused)
    else
      var before := docs + interim;
      (InsertDoc(before, key, payload),
       if !LooksUp(before, key) then Created(|before|)
       else if survives then Replayed(FindKey(before, key.value))
       else DatabaseError)
  }

  /** Whatever the others do, a creation leaves keys unique and answers success only with its document there. */
  lemma CreateDocMeans(docs: seq<Doc>, key: Option<Key>, payload: Payload, acceptable: bool, interim: seq<Doc>, survives: bool)
    requires UniqueKeys(docs) && UniqueKeys(docs + interim)
    ensures var (docs', r) := CreateDoc(docs, key, payload, acceptable, interim, survives);
      && UniqueKeys(docs') && docs <= docs'
      && (r.Created? ==> docs' == docs + interim + [Doc(key, payload)] && r.index == |docs + interim|)
      && (r.Replayed? ==> r.index < |docs'| && key.Some? && docs'[r.index].key == key)
      && (!r.Created? ==> docs' == docs || docs' == docs + interim)
      && (LooksUp(docs, key) ==> r.Replayed? && docs' == docs)
      && (r.Created? <==> acceptable && !LooksUp(docs, key) && !LooksUp(docs + interim, key))
      && (r.Refused? <==> !acceptable && !LooksUp(docs, key))
      && (r.DatabaseError? <==> acceptable && !survives && !LooksUp(docs, key) && LooksUp(docs + interim, key))
  {
    if !LooksUp(docs + interim, key) {
      UniqueAfterInsert(docs + interim, Doc(key, payload));
    }
  }

  /** One table of documents. */
  class Documents {
    var docs: seq<Doc>

    ghost predicate Valid()
      reads this
    {
      UniqueKeys(docs)
    }

    constructor ()
      ensures Valid() && docs == []
    {
      docs := [];
    }

    method Find(key: Key) returns (found: Option<nat>)
      ensures found == if HasKey(docs, key) then Some(FindKey(docs, key)) else None
    {
      for i := 0 to |docs|
        invariant forall j | 0 <= j < i :: docs[j].key != Some(key)
      {
        if docs[i].key == Some(key) {
          return Some(i);
        }
      }
      return None;
    }

    method Create(key: Option<Key>, payload: Payload, acceptable: bool, interim: seq<Doc>, survives: bool) returns (r: CreateResult)
      requires Valid() && UniqueKeys(docs + interim)
      modifies this
      ensures Valid() && (docs, r) == CreateDoc(old(docs), key, payload, acceptable, interim, survives)
    {
      CreateDocMeans(docs, key, payload, acceptable, interim, survives);
      if key.Some? {
        var existing := Find(key.value);
        if existing.Some? {
          return Replayed(existing.value);
        }
      }
      if !acceptable {
        return Refused;
      }
      docs := docs + interim;
      if key.Some? {
        // The unique constraint refuses a second row under the key; the loser reads the winner's.
        var winner := Find(key.value);
        if winner.Some? {
          return if survives then Replayed(winner.value) else DatabaseError;
        }
      }
      r := Created(|docs|);
      docs := docs + [Doc(key, payload)];
    }
  }
}
