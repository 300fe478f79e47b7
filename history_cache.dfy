/** The history cache: a most-recent-first list of generated-image records,
    capped at 25 entries, kept in a browser key-value store under the single
    key "images". */
module HistoryCache {
  import opened Wrappers
  import opened JsValues

  /** The one storage key the cache reads and writes. */
  const HistoryKey: string := "images"

  /** Every write keeps at most this many records. */
  const MaxHistory: nat := 25

  /** The api type a record gets when the batch gives none (or a falsy one). */
  const DefaultApiType: string := "anime"

  /** A reference to a generated image (a URL or encoded image text). */
  type ImageRef = string

  /** The output of one generation request: its images and the metadata
      they share. `apiType` is optional. */
  datatype Batch = Batch(images: seq<ImageRef>, prompt: string, apiType: Option<string>)

  datatype HistoryRecord = HistoryRecord(image: ImageRef, prompt: string, apiType: string)

  /** The api type every record of a batch carries: `batch.apiType || 'anime'`. */
  function ApiTypeOf(batch: Batch): (t: string)
    ensures t != ""
    ensures Truthy(batch.apiType) ==> t == batch.apiType.value
    ensures !Truthy(batch.apiType) ==> t == DefaultApiType
  {
    Or(batch.apiType, DefaultApiType)
  }

  /** One record per image of the batch, in the batch's order
      (the `batch.images.map(...)` call). */
  function Records(batch: Batch): (rs: seq<HistoryRecord>)
    decreases |batch.images|
    ensures |rs| == |batch.images|
    ensures forall i :: 0 <= i < |rs| ==>
      rs[i].image == batch.images[i] && rs[i].prompt == batch.prompt && rs[i].apiType == ApiTypeOf(batch)
  {
    if batch.images == [] then []
    else [HistoryRecord(batch.images[0], batch.prompt, ApiTypeOf(batch))] + Records(batch.(images := batch.images[1..]))
  }

  /** What `splice(25)` leaves of a list: its first 25 elements. */
  function Cap<T>(s: seq<T>): (r: seq<T>)
    ensures |r| == Min(|s|, MaxHistory)
    ensures r <= s
  {
    if |s| <= MaxHistory then s else s[..MaxHistory]
  }

  /** The previous history as the update uses it: an absent (falsy) value is
      treated as the empty list. */
  function PriorList(prior: Option<seq<HistoryRecord>>): seq<HistoryRecord>
  {
    if prior.Some? then prior.value else []
  }

  /** The list `updateHistory` writes back: the batch's records in front of the
      previous history, truncated to 25 entries. */
  function NewHistory(batch: Batch, prior: Option<seq<HistoryRecord>>): (r: seq<HistoryRecord>)
    ensures |r| == Min(|batch.images| + |PriorList(prior)|, MaxHistory)
    ensures forall i :: 0 <= i < |r| && i < |batch.images| ==>
      r[i] == HistoryRecord(batch.images[i], batch.prompt, ApiTypeOf(batch))
    ensures forall i :: |batch.images| <= i < |r| ==> r[i] == PriorList(prior)[i - |batch.images|]
  {
    Cap(Records(batch) + PriorList(prior))
  }

  /** `get('images')` on the store's contents. */
  function StoredHistory(entries: map<string, seq<HistoryRecord>>): (h: Option<seq<HistoryRecord>>)
    ensures h.Some? <==> HistoryKey in entries
    ensures h.Some? ==> h.value == entries[HistoryKey]
  {
    if HistoryKey in entries then Some(entries[HistoryKey]) else None
  }

  /** The store's contents after `updateHistory`, given whether its read and its
      write succeed. Either failure is caught, so nothing is written. */
  function UpdatedEntries(entries: map<string, seq<HistoryRecord>>, batch: Batch, read: Outcome, write: Outcome)
    : (m: map<string, seq<HistoryRecord>>)
    ensures read.Fails? || write.Fails? ==> m == entries
    ensures read.Succeeds? && write.Succeeds? ==>
      m.Keys == entries.Keys + {HistoryKey} && StoredHistory(m) == Some(NewHistory(batch, StoredHistory(entries)))
    ensures forall k :: k != HistoryKey && k in entries ==> k in m && m[k] == entries[k]
  {
    if read.Succeeds? && write.Succeeds? then entries[HistoryKey := NewHistory(batch, StoredHistory(entries))]
    else entries
  }

  /** What `fetchHistory` returns: the stored list, or `undefined` when the key
      is absent or the read fails (the two cannot be told apart). */
  function FetchResult(entries: map<string, seq<HistoryRecord>>, read: Outcome): (r: Option<seq<HistoryRecord>>)
    ensures r.Some? <==> read.Succeeds? && HistoryKey in entries
    ensures r.Some? ==> r.value == entries[HistoryKey]
  {
    if read.Succeeds? then StoredHistory(entries) else None
  }

  /** The browser key-value store, every key holding a serialized value. Each
      call takes the outcome of the underlying storage operation. */
  class KeyValueStore {
    var entries: map<string, seq<HistoryRecord>>

    constructor ()
      ensures entries == map[]
    {
      entries := map[];
    }

    /** `get(key)`: resolves with the stored value or `undefined`, or rejects. */
    method Get(key: string, io: Outcome) returns (r: Result<Option<seq<HistoryRecord>>>)
      ensures io.Fails? ==> r == Rejected
      ensures io.Succeeds? ==> r.Ok? && (r.value.Some? <==> key in entries)
      ensures io.Succeeds? && key in entries ==> r.value.value == entries[key]
    {
      if io.Fails? {
        r := Rejected;
      } else if key in entries {
        r := Ok(Some(entries[key]));
      } else {
        r := Ok(None);
      }
    }

    /** `set(key, value)`: a rejected write leaves the store as it was. */
    method Set(key: string, value: seq<HistoryRecord>, io: Outcome) returns (r: Outcome)
      modifies this
      ensures r == io
      ensures entries == if io.Succeeds? then old(entries)[key := value] else old(entries)
    {
      if io.Succeeds? {
        entries := entries[key := value];
      }
      r := io;
    }

    /** `clear()`: removes every key, not only the history key. */
    method Clear(io: Outcome) returns (r: Outcome)
      modifies this
      ensures r == io
      ensures entries == if io.Succeeds? then map[] else old(entries)
    {
      if io.Succeeds? {
        entries := map[];
      }
      r := io;
    }
  }

  /** `updateHistory(batch)`: read, prepend the batch's records, truncate to 25,
      write back. A rejected read or write is logged and swallowed. */
  method UpdateHistory(store: KeyValueStore, batch: Batch, read: Outcome, write: Outcome)
    modifies store
    ensures store.entries == UpdatedEntries(old(store.entries), batch, read, write)
  {
    var history := store.Get(HistoryKey, read);
    if history.Rejected? {
      return;
    }
    var images := Records(batch);
    if history.value.Some? {
      images := images + history.value.value;
    }
    images := Cap(images);
    assert images == NewHistory(batch, StoredHistory(store.entries));
    var _ := store.Set(HistoryKey, images, write);
  }

  /** `fetchHistory()`: the stored list, `undefined` when absent or on a
      rejected read. */
  method FetchHistory(store: KeyValueStore, read: Outcome) returns (r: Option<seq<HistoryRecord>>)
    ensures r == FetchResult(store.entries, read)
  {
    var history := store.Get(HistoryKey, read);
    r := if history.Ok? then history.value else None;
  }

  /** `clearHistory()`: clears the whole store. There is no catch, so a
      rejection reaches the caller. */
  method ClearHistory(store: KeyValueStore, io: Outcome) returns (r: Outcome)
    modifies store
    ensures r == io
    ensures store.entries == if io.Succeeds? then map[] else old(store.entries)
    ensures io.Succeeds? ==> FetchResult(store.entries, Succeeds) == None
  {
    r := store.Clear(io);
  }

  /** Right after a successful update, a fetch returns the list just written. */
  lemma FetchAfterUpdate(entries: map<string, seq<HistoryRecord>>, batch: Batch)
    ensures FetchResult(UpdatedEntries(entries, batch, Succeeds, Succeeds), Succeeds)
         == Some(NewHistory(batch, StoredHistory(entries)))
  {
  }

  /** After a clear, a fetch returns `undefined`. */
  lemma FetchAfterClear(read: Outcome)
    ensures FetchResult(map[], read) == None
  {
  }

  /** Three images into an empty history give three records with the shared
      prompt and the default api type, in the batch's order. */
  lemma FirstBatchExample(a: ImageRef, b: ImageRef, c: ImageRef, prompt: string)
    ensures NewHistory(Batch([a, b, c], prompt, None), None)
         == [HistoryRecord(a, prompt, DefaultApiType), HistoryRecord(b, prompt, DefaultApiType),
             HistoryRecord(c, prompt, DefaultApiType)]
  {
  }

  /** Every update leaves a history of at most 25 records: the cap holds
      whatever was stored before and however the calls settle, as long as it
      held before. */
  lemma UpdateKeepsCap(entries: map<string, seq<HistoryRecord>>, batch: Batch, read: Outcome, write: Outcome)
    requires HistoryKey in entries ==> |entries[HistoryKey]| <= MaxHistory
    ensures var m := UpdatedEntries(entries, batch, read, write);
      HistoryKey in m ==> |m[HistoryKey]| <= MaxHistory
  {
  }

  /** Which of the old records survive an update: with 25 or more new images
      none does; otherwise exactly the 25 - N newest old ones. */
  lemma SurvivingOldRecords(batch: Batch, prior: Option<seq<HistoryRecord>>)
    ensures |batch.images| >= MaxHistory ==> NewHistory(batch, prior) == Records(batch)[..MaxHistory]
    ensures |batch.images| < MaxHistory ==>
      NewHistory(batch, prior)
        == Records(batch) + PriorList(prior)[..Min(|PriorList(prior)|, MaxHistory - |batch.images|)]
  {
  }

  /** Truncating the tail before prepending changes nothing once the whole is
      truncated again. */
  lemma CapAbsorbs<T>(front: seq<T>, back: seq<T>)
    ensures Cap(front + Cap(back)) == Cap(front + back)
  {
  }

  /** The store after a series of successful updates, applied in call order. */
  function ApplyAll(entries: map<string, seq<HistoryRecord>>, batches: seq<Batch>): map<string, seq<HistoryRecord>>
    decreases |batches|
  {
    if batches == [] then entries
    else UpdatedEntries(ApplyAll(entries, batches[..|batches| - 1]), batches[|batches| - 1], Succeeds, Succeeds)
  }

  /** Every record the series of batches produces, newest batch first. */
  function RecordsNewestFirst(batches: seq<Batch>): seq<HistoryRecord>
    decreases |batches|
  {
    if batches == [] then []
    else Records(batches[|batches| - 1]) + RecordsNewestFirst(batches[..|batches| - 1])
  }

  /** One more successful update replaces the stored history by the new list. */
  lemma ApplyLast(entries: map<string, seq<HistoryRecord>>, batches: seq<Batch>)
    requires batches != []
    ensures StoredHistory(ApplyAll(entries, batches))
         == Some(NewHistory(batches[|batches| - 1], StoredHistory(ApplyAll(entries, batches[..|batches| - 1]))))
  {
  }

  /** After any series of successful updates the history is a sliding window:
      the 25 newest of all records ever added, in front of what was stored
      before, newest first. */
  lemma {:induction false} SlidingWindow(entries: map<string, seq<HistoryRecord>>, batches: seq<Batch>)
    requires batches != []
    ensures StoredHistory(ApplyAll(entries, batches))
         == Some(Cap(RecordsNewestFirst(batches) + PriorList(StoredHistory(entries))))
  {
    var init, last := batches[..|batches| - 1], batches[|batches| - 1];
    var before := PriorList(StoredHistory(entries));
    ApplyLast(entries, batches);
    if init == [] {
      assert ApplyAll(entries, init) == entries;
      assert RecordsNewestFirst(batches) == Records(last) + [];
      assert RecordsNewestFirst(batches) + before == Records(last) + before;
    } else {
      SlidingWindow(entries, init);
      var window := RecordsNewestFirst(init) + before;
      assert PriorList(StoredHistory(ApplyAll(entries, init))) == Cap(window);
      CapAbsorbs(Records(last), window);
      assert Records(last) + window == RecordsNewestFirst(batches) + before;
    }
  }
}
