/** The guestbook record store: the JSON document `storage/data.json`, read in
    full and rewritten in full on every submission. */
module Records {

  /** The value stored under a timestamp: `{"username": ..., "message": ...}`. */
  datatype Entry = Entry(username: string, message: string)

  /** The whole document, keyed by submission timestamp. */
  type Document = map<string, Entry>

  /** One submission as `do_POST` builds it: `{timestamp: {username, message}}`. */
  datatype Submission = Submission(timestamp: string, entry: Entry)

  /** The state of the backing file. `Unparsable` stands for a file that
      `json.load` rejects, or whose top-level value is not an object, so that
      the update raises before anything is written. */
  datatype StoredFile = Missing | Stored(doc: Document) | Unparsable

  /** What loading the file yields: a document, or an exception. */
  datatype LoadResult = Doc(doc: Document) | Raises

  /** `data.update({ts: e})`: the document with `ts` bound to `e`. */
  function Updated(doc: Document, ts: string, e: Entry): (d: Document)
    ensures ts in d && d[ts] == e
    ensures forall k :: k in doc && k != ts ==> k in d && d[k] == doc[k]
    ensures d.Keys == doc.Keys + {ts}
    ensures |d| == if ts in doc then |doc| else |doc| + 1
  {
    doc[ts := e]
  }

  /** Submitting twice under the same timestamp keeps only the later entry. */
  lemma SameTimestampOverwrites(doc: Document, ts: string, first: Entry, second: Entry)
    ensures Updated(Updated(doc, ts, first), ts, second) == Updated(doc, ts, second)
  {
  }

  /** The document after a run of submissions, applied in order. */
  function Replay(doc: Document, subs: seq<Submission>): Document
  {
    if subs == [] then doc
    else
      var last := subs[|subs| - 1];
      Updated(Replay(doc, subs[..|subs| - 1]), last.timestamp, last.entry)
  }

  function Timestamps(subs: seq<Submission>): set<string>
  {
    set i | 0 <= i < |subs| :: subs[i].timestamp
  }

  predicate DistinctTimestamps(subs: seq<Submission>)
  {
    forall i, j :: 0 <= i < j < |subs| ==> subs[i].timestamp != subs[j].timestamp
  }

  /** The timestamps of a run are those of all but its last submission,
      plus the last one's. */
  lemma TimestampsSnoc(subs: seq<Submission>)
    requires subs != []
    ensures Timestamps(subs) == Timestamps(subs[..|subs| - 1]) + {subs[|subs| - 1].timestamp}
  {
    var init := subs[..|subs| - 1];
    forall t | t in Timestamps(subs) ensures t in Timestamps(init) + {subs[|subs| - 1].timestamp} {
      var i :| 0 <= i < |subs| && subs[i].timestamp == t;
      if i < |subs| - 1 {
        assert init[i] == subs[i];
      }
    }
    forall t | t in Timestamps(init) ensures t in Timestamps(subs) {
      var i :| 0 <= i < |init| && init[i].timestamp == t;
      assert subs[i] == init[i];
    }
  }

  /** A run of submissions adds exactly their timestamps as keys. */
  lemma {:induction false} ReplayKeys(doc: Document, subs: seq<Submission>)
    ensures Replay(doc, subs).Keys == doc.Keys + Timestamps(subs)
  {
    if subs != [] {
      ReplayKeys(doc, subs[..|subs| - 1]);
      TimestampsSnoc(subs);
    }
  }

  /** Submissions with distinct, new timestamps are all kept: starting from a
      document of `n` entries, `k` of them give `n + k` entries. */
  lemma {:induction false} ReplaySize(doc: Document, subs: seq<Submission>)
    requires DistinctTimestamps(subs)
    requires forall i :: 0 <= i < |subs| ==> subs[i].timestamp !in doc
    ensures |Replay(doc, subs)| == |doc| + |subs|
  {
    if subs != [] {
      var init := subs[..|subs| - 1];
      var last := subs[|subs| - 1];
      ReplaySize(doc, init);
      ReplayKeys(doc, init);
      assert last.timestamp !in Timestamps(init);
    }
  }

  /** Every key holds the entry of the latest submission under it. */
  lemma {:induction false} ReplayLatest(doc: Document, subs: seq<Submission>, i: nat)
    requires i < |subs|
    requires forall j :: i < j < |subs| ==> subs[j].timestamp != subs[i].timestamp
    ensures subs[i].timestamp in Replay(doc, subs)
    ensures Replay(doc, subs)[subs[i].timestamp] == subs[i].entry
  {
    if i < |subs| - 1 {
      var init := subs[..|subs| - 1];
      assert init[i] == subs[i];
      ReplayLatest(doc, init, i);
    }
  }

  /** Applying one more submission to a run is one more `Updated`. */
  lemma ReplaySnoc(doc: Document, subs: seq<Submission>, s: Submission)
    ensures Replay(doc, subs + [s]) == Updated(Replay(doc, subs), s.timestamp, s.entry)
  {
    assert (subs + [s])[..|subs|] == subs;
  }

  /** Keys no submission names keep their earlier entry. */
  lemma {:induction false} ReplayKeepsOthers(doc: Document, subs: seq<Submission>, k: string)
    requires k in doc && k !in Timestamps(subs)
    ensures k in Replay(doc, subs) && Replay(doc, subs)[k] == doc[k]
  {
    if subs != [] {
      var init := subs[..|subs| - 1];
      TimestampsSnoc(subs);
      ReplayKeepsOthers(doc, init, k);
    }
  }

  /** The store as the handler sees it: the file `storage/data.json`. */
  class RecordStore {
    var file: StoredFile

    /** Before the first submission the file does not exist. */
    constructor ()
      ensures file == Missing
    {
      file := Missing;
    }

    /** What the handler starts from when it loads the document: `{}` when
        the file is absent, nothing when it cannot be read as an object. */
    function Load(): (l: LoadResult)
      reads this
      ensures l.Raises? <==> file.Unparsable?
      ensures file.Missing? ==> l == Doc(map[])
      ensures file.Stored? ==> l == Doc(file.doc)
    {
      match file
      case Missing => Doc(map[])
      case Stored(doc) => Doc(doc)
      case Unparsable => Raises
    }

    /** The read-modify-write of `do_POST`: load the document (or start from
        `{}`), bind `ts` to the new entry, write the whole document back.
        When loading raises, nothing is written and `ok` is false. */
    method Append(ts: string, username: string, message: string) returns (ok: bool)
      modifies this
      ensures ok <==> !old(file).Unparsable?
      ensures ok ==> file == Stored(Updated(old(Load()).doc, ts, Entry(username, message)))
      ensures ok ==> ts in file.doc && file.doc[ts] == Entry(username, message)
      ensures ok ==> forall k :: k in old(Load()).doc && k != ts ==> k in file.doc && file.doc[k] == old(Load()).doc[k]
      ensures ok ==> |file.doc| <= |old(Load()).doc| + 1
      ensures ok && old(file).Missing? ==> file == Stored(map[ts := Entry(username, message)])
      ensures !ok ==> file == old(file)
    {
      var data: Document;
      match file {
        case Missing =>
          data := map[];
        case Stored(doc) =>
          data := doc;
        case Unparsable =>
          return false;
      }
      data := Updated(data, ts, Entry(username, message));
      file := Stored(data);
      ok := true;
    }
  }

  /** The first submission to a store without a document file creates a
      document holding exactly that entry. */
  method FirstSubmission(ts: string, username: string, message: string) returns (store: RecordStore)
    ensures store.file.Stored? && store.file.doc == map[ts := Entry(username, message)]
    ensures |store.file.doc| == 1
  {
    store := new RecordStore();
    var ok := store.Append(ts, username, message);
  }

  /** Submissions handled one after another, each a full read-modify-write:
      a file holding `doc` ends up holding `Replay(doc, subs)`, so the
      `Replay` lemmas describe what the store keeps. */
  method AppendRun(store: RecordStore, subs: seq<Submission>, ghost doc: Document)
    requires store.file == Stored(doc)
    modifies store
    ensures store.file == Stored(Replay(doc, subs))
  {
    var i := 0;
    while i < |subs|
      invariant 0 <= i <= |subs|
      invariant store.file == Stored(Replay(doc, subs[..i]))
    {
      var ok := store.Append(subs[i].timestamp, subs[i].entry.username, subs[i].entry.message);
      ReplaySnoc(doc, subs[..i], subs[i]);
      assert subs[..i + 1] == subs[..i] + [subs[i]];
      i := i + 1;
    }
    assert subs[..|subs|] == subs;
  }
}
