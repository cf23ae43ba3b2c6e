/**
 * The prologue of `OandaSync.sync_instrument`: the due check, the status
 * updates, and the progress counter's initial value. The eligibility rule,
 * the historical range and the chunk split are helpers this model does not
 * see; they come in as uninterpreted functions.
 */
module SyncManager {

  /** One instrument's (status, message) pair in the status board. */
  datatype StatusEntry = StatusEntry(status: string, message: string)

  /** Chunks done out of chunks planned. */
  datatype Progress = Progress(done: nat, total: nat)

  /** One fetch window, as the chunk helper returns it. */
  datatype Chunk = Chunk(start: int, end: int)

  /** The observable steps of a sync, in the order they happen. */
  datatype Step =
    | StatusUpdated(instrument: string, entry: StatusEntry)
    | RangeQueried(instrument: string)
    | ChunksComputed(instrument: string, start: int, end: int)
    | ProgressSet(instrument: string, progress: Progress)

  /** How the prologue ends: skipped, or ready to work through the chunks. */
  datatype Prologue = Skipped | Started(start: int, end: int, chunks: seq<Chunk>)

  const NotDue: StatusEntry := StatusEntry("skipped", "Not due for sync")
  const Analyzing: StatusEntry := StatusEntry("running", "Analyzing data range...")

  class OandaSync {
    /** sync_status's per-instrument (status, message). */
    var statuses: map<string, StatusEntry>
    /** sync_status's per-instrument progress counter. */
    var progress: map<string, Progress>
    /** Every status change and helper call so far. */
    ghost var trace: seq<Step>

    /** Every progress counter has done <= total. */
    ghost predicate Valid()
      reads this
    {
      forall i :: i in progress ==> progress[i].done <= progress[i].total
    }

    constructor ()
      ensures Valid()
      ensures statuses == map[] && progress == map[] && trace == []
    {
      statuses, progress := map[], map[];
      trace := [];
    }

    /** sync_status.update: overwrite one instrument's status and message. */
    method Update(instrument: string, status: string, message: string)
      requires Valid()
      modifies this
      ensures Valid()
      ensures statuses == old(statuses)[instrument := StatusEntry(status, message)]
      ensures progress == old(progress)
      ensures trace == old(trace) + [StatusUpdated(instrument, StatusEntry(status, message))]
    {
      statuses := statuses[instrument := StatusEntry(status, message)];
      trace := trace + [StatusUpdated(instrument, StatusEntry(status, message))];
    }

    /** sync_status.set_progress: overwrite one instrument's progress counter. */
    method SetProgress(instrument: string, done: nat, total: nat)
      requires Valid() && done <= total
      modifies this
      ensures Valid()
      ensures progress == old(progress)[instrument := Progress(done, total)]
      ensures statuses == old(statuses)
      ensures trace == old(trace) + [ProgressSet(instrument, Progress(done, total))]
    {
      progress := progress[instrument := Progress(done, total)];
      trace := trace + [ProgressSet(instrument, Progress(done, total))];
    }

    /**
     * sync_instrument up to the progress initialisation. An instrument not
     * due is marked skipped and nothing else happens: no range, no chunks,
     * no progress. A due instrument is marked running before its range is
     * asked for; its chunks are computed from exactly that range, and its
     * progress starts at 0 of the number of chunks. No other instrument's
     * entries change.
     */
    method SyncInstrument(instrument: string,
                          shouldSyncNow: string -> bool,
                          historicalRange: string -> (int, int),
                          calculateChunks: (int, int, string) -> seq<Chunk>)
      returns (p: Prologue)
      requires Valid()
      modifies this
      ensures Valid()
      ensures !shouldSyncNow(instrument) ==>
                && p == Skipped
                && statuses == old(statuses)[instrument := NotDue]
                && progress == old(progress)
                && trace == old(trace) + [StatusUpdated(instrument, NotDue)]
      ensures shouldSyncNow(instrument) ==>
                var (start, end) := historicalRange(instrument);
                var chunks := calculateChunks(start, end, instrument);
                && p == Started(start, end, chunks)
                && statuses == old(statuses)[instrument := Analyzing]
                && progress == old(progress)[instrument := Progress(0, |chunks|)]
                && trace == old(trace) + [StatusUpdated(instrument, Analyzing),
                                          RangeQueried(instrument),
                                          ChunksComputed(instrument, start, end),
                                          ProgressSet(instrument, Progress(0, |chunks|))]
    {
      if !shouldSyncNow(instrument) {
        Update(instrument, NotDue.status, NotDue.message);
        return Skipped;
      }
      Update(instrument, Analyzing.status, Analyzing.message);

      var (start, end) := historicalRange(instrument);
      trace := trace + [RangeQueried(instrument)];
      var chunks := calculateChunks(start, end, instrument);
      trace := trace + [ChunksComputed(instrument, start, end)];
      var totalChunks := |chunks|;

      SetProgress(instrument, 0, totalChunks);
      p := Started(start, end, chunks);
    }
  }
}
