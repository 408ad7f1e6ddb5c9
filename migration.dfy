/** The two data migrations of the brick: version 0.1.8 splits each message source that holds
    a list of chunks into one source per chunk, and version 0.2.0 renames the stored
    conversation modes. */
module Migration {
  import opened Wrappers
  import opened ChatMessages
  import opened Seqs

  // ---------------------------------------------------------------- 0.1.8: one chunk per source

  /** A chunk as stored in JSON; only its score matters here (None when it has no "score"
      key). */
  datatype Chunk = Chunk(score: Option<real>, content: string)

  /** The JSON `chunk` column: empty, a single chunk object, or a list of chunks (the format
      before this migration). */
  datatype ChunkField = NoChunk | SingleChunk(chunk: Chunk) | ChunkList(chunks: seq<Chunk>)

  /** A row of the message-source table. */
  datatype SourceRow = SourceRow(id: nat, message: string, documentId: string, documentName: string,
                                 score: real, chunk: ChunkField)

  /** A row after the migration: a list keeps its first chunk, an empty list becomes no
      chunk, anything else is left untouched. */
  function MigratedRow(row: SourceRow): SourceRow
  {
    match row.chunk
    case ChunkList(chunks) => if |chunks| > 0 then row.(chunk := SingleChunk(chunks[0])) else row.(chunk := NoChunk)
    case _ => row
  }

  /** The migration keeps the row's id, message, document and score, and leaves no list
      behind; a row without a list is left as it is. */
  lemma MigratedRowKeepsSource(row: SourceRow)
    ensures var r := MigratedRow(row);
            && r.id == row.id && r.message == row.message && r.documentId == row.documentId
            && r.documentName == row.documentName && r.score == row.score
            && !r.chunk.ChunkList?
            && (!row.chunk.ChunkList? ==> r == row)
            && (row.chunk.ChunkList? && |row.chunk.chunks| > 0 ==> r.chunk == SingleChunk(row.chunk.chunks[0]))
            && (row.chunk.ChunkList? && |row.chunk.chunks| == 0 ==> r.chunk == NoChunk)
  {
  }

  /** The new rows for the chunks after the first, numbered from `nextId`: same message and
      document, the chunk's own score when it has one, else the source's. */
  function SplitRows(row: SourceRow, chunks: seq<Chunk>, nextId: nat): (r: seq<SourceRow>)
    ensures |r| == |chunks|
    decreases |chunks|
  {
    if |chunks| == 0 then []
    else
      var n := |chunks| - 1;
      var c := chunks[n];
      SplitRows(row, chunks[..n], nextId) + [SourceRow(nextId + n, row.message, row.documentId, row.documentName,
                                                       c.score.GetOr(row.score), SingleChunk(c))]
  }

  /** The `i`-th new row carries the `i`-th chunk, the source's message and document, and the
      chunk's score when it has one, else the source's. */
  lemma {:induction false} SplitRowsAt(row: SourceRow, chunks: seq<Chunk>, nextId: nat, i: nat)
    requires i < |chunks|
    ensures SplitRows(row, chunks, nextId)[i]
            == SourceRow(nextId + i, row.message, row.documentId, row.documentName,
                         chunks[i].score.GetOr(row.score), SingleChunk(chunks[i]))
    decreases |chunks|
  {
    var n := |chunks| - 1;
    if i < n {
      SplitRowsAt(row, chunks[..n], nextId, i);
    }
  }

  /** The chunks of a row that get rows of their own. */
  function Remaining(row: SourceRow): seq<Chunk>
  {
    if row.chunk.ChunkList? && |row.chunk.chunks| > 0 then row.chunk.chunks[1..] else []
  }

  /** The rows appended by the migration of the first `i` rows, in order, numbered from
      `nextId`. */
  function NewRowsUpTo(rows: seq<SourceRow>, i: nat, nextId: nat): seq<SourceRow>
    requires i <= |rows|
    decreases i
  {
    if i == 0 then []
    else
      var before := NewRowsUpTo(rows, i - 1, nextId);
      before + SplitRows(rows[i - 1], Remaining(rows[i - 1]), nextId + |before|)
  }

  /** The rows appended by the migration of `rows`, in order, numbered from `nextId`. */
  function NewRows(rows: seq<SourceRow>, nextId: nat): seq<SourceRow>
  {
    NewRowsUpTo(rows, |rows|, nextId)
  }

  /** How many rows the migration of the first `i` rows adds. */
  function ExtraCountUpTo(rows: seq<SourceRow>, i: nat): nat
    requires i <= |rows|
    decreases i
  {
    if i == 0 then 0 else ExtraCountUpTo(rows, i - 1) + |Remaining(rows[i - 1])|
  }

  /** How many rows the migration adds: one per chunk after the first of every list. */
  function ExtraCount(rows: seq<SourceRow>): nat
  {
    ExtraCountUpTo(rows, |rows|)
  }

  lemma {:induction false} NewRowsUpToCount(rows: seq<SourceRow>, i: nat, nextId: nat)
    requires i <= |rows|
    ensures |NewRowsUpTo(rows, i, nextId)| == ExtraCountUpTo(rows, i)
    decreases i
  {
    if i > 0 {
      NewRowsUpToCount(rows, i - 1, nextId);
    }
  }

  /** The migration adds one row per chunk after the first of every list. */
  lemma NewRowsCount(rows: seq<SourceRow>, nextId: nat)
    ensures |NewRows(rows, nextId)| == ExtraCount(rows)
  {
    NewRowsUpToCount(rows, |rows|, nextId);
  }

  lemma {:induction false} NoNewRowsUpTo(rows: seq<SourceRow>, i: nat, nextId: nat)
    requires i <= |rows|
    requires forall j :: 0 <= j < |rows| ==> !rows[j].chunk.ChunkList?
    ensures NewRowsUpTo(rows, i, nextId) == []
    decreases i
  {
    if i > 0 {
      NoNewRowsUpTo(rows, i - 1, nextId);
    }
  }

  /** A table already migrated holds no list, so the migration adds nothing. */
  lemma NoNewRowsWhenMigrated(rows: seq<SourceRow>, nextId: nat)
    requires forall i :: 0 <= i < |rows| ==> !rows[i].chunk.ChunkList?
    ensures NewRows(rows, nextId) == []
  {
    NoNewRowsUpTo(rows, |rows|, nextId);
  }

  /** Every chunk of every list ends up in exactly one row: the first stays in its source, the
      others are counted among the new rows. */
  lemma ChunksKept(row: SourceRow)
    requires row.chunk.ChunkList? && |row.chunk.chunks| > 0
    ensures [MigratedRow(row).chunk.chunk] + Remaining(row) == row.chunk.chunks
  {
  }

  /** The rows added for one more source. */
  lemma NewRowsUpToSnoc(rows: seq<SourceRow>, i: nat, nextId: nat)
    requires i < |rows|
    ensures NewRowsUpTo(rows, i + 1, nextId)
            == NewRowsUpTo(rows, i, nextId) + SplitRows(rows[i], Remaining(rows[i]), nextId + |NewRowsUpTo(rows, i, nextId)|)
  {
  }

  /** The rows added so far grow by the rows of the next source. */
  lemma AddedStep(sources: seq<SourceRow>, i: nat, start: nat, added: seq<SourceRow>, extra: seq<SourceRow>, nextId: nat)
    requires i < |sources|
    requires added == NewRowsUpTo(sources, i, start) && nextId == start + |added|
    requires extra == SplitRows(sources[i], Remaining(sources[i]), nextId)
    ensures added + extra == NewRowsUpTo(sources, i + 1, start)
  {
    NewRowsUpToSnoc(sources, i, start);
    assert start + |NewRowsUpTo(sources, i, start)| == nextId;
  }

  /** `rows` with every row migrated. */
  function MigratedRows(rows: seq<SourceRow>): (r: seq<SourceRow>)
    ensures |r| == |rows|
    decreases |rows|
  {
    if |rows| == 0 then [] else MigratedRows(rows[..|rows| - 1]) + [MigratedRow(rows[|rows| - 1])]
  }

  /** Each row is migrated on its own. */
  lemma {:induction false} MigratedRowsAt(rows: seq<SourceRow>, i: nat)
    requires i < |rows|
    ensures MigratedRows(rows)[i] == MigratedRow(rows[i])
    decreases |rows|
  {
    var n := |rows| - 1;
    if i < n {
      MigratedRowsAt(rows[..n], i);
    }
  }

  /** The table after the loop has migrated the first `i` sources and added `added`. */
  function Partial(sources: seq<SourceRow>, i: nat, added: seq<SourceRow>): seq<SourceRow>
    requires i <= |sources|
  {
    MigratedRows(sources[..i]) + sources[i..] + added
  }

  /** One turn of the loop: source `i` is rewritten in place and its rows appended. */
  lemma PartialStep(sources: seq<SourceRow>, i: nat, added: seq<SourceRow>, extra: seq<SourceRow>)
    requires i < |sources|
    ensures Partial(sources, i, added)[i := MigratedRow(sources[i])] + extra == Partial(sources, i + 1, added + extra)
  {
    var a := Partial(sources, i, added)[i := MigratedRow(sources[i])] + extra;
    var b := Partial(sources, i + 1, added + extra);
    assert |a| == |b|;
    forall j | 0 <= j < |a|
      ensures a[j] == b[j]
    {
      if j < i {
        MigratedRowsAt(sources[..i], j);
        MigratedRowsAt(sources[..i + 1], j);
        assert a[j] == MigratedRow(sources[j]);
      } else if j == i {
        MigratedRowsAt(sources[..i + 1], j);
      } else if j < |sources| {
        assert a[j] == sources[j];
      }
    }
  }

  /** Once every source is migrated, the table is the migrated sources followed by the new rows. */
  lemma PartialDone(sources: seq<SourceRow>, added: seq<SourceRow>)
    ensures Partial(sources, |sources|, added) == MigratedRows(sources) + added
  {
    var all := sources[..|sources|];
    assert all == sources;
    assert sources[|sources|..] == [];
    assert MigratedRows(all) + [] == MigratedRows(sources);
  }

  /** The body of the migration loop for one source: its rewritten row, and the rows for its
      remaining chunks numbered from `nextId`. */
  method MigrateSource(source: SourceRow, nextId: nat) returns (updated: SourceRow, extra: seq<SourceRow>)
    ensures updated == MigratedRow(source)
    ensures extra == SplitRows(source, Remaining(source), nextId)
  {
    updated := source;
    extra := [];
    match source.chunk {
      case NoChunk =>
      case SingleChunk(_) =>
      case ChunkList(chunks) =>
        if |chunks| > 0 {
          updated := source.(chunk := SingleChunk(chunks[0]));
          var k := 1;
          while k < |chunks|
            invariant 1 <= k <= |chunks|
            invariant extra == SplitRows(source, chunks[1..k], nextId)
          {
            var c := chunks[k];
            assert chunks[1..k + 1][..k - 1] == chunks[1..k];
            assert chunks[1..k + 1][k - 1] == c;
            extra := extra + [SourceRow(nextId + k - 1, source.message, source.documentId, source.documentName,
                                        c.score.GetOr(source.score), SingleChunk(c))];
            k := k + 1;
          }
          assert chunks[1..k] == Remaining(source);
        } else {
          updated := source.(chunk := NoChunk);
        }
    }
  }

  /** Every row added for the first `i` rows holds a single chunk. */
  lemma {:induction false} NewRowsUpToHoldOneChunk(rows: seq<SourceRow>, i: nat, nextId: nat)
    requires i <= |rows|
    ensures forall j :: 0 <= j < |NewRowsUpTo(rows, i, nextId)| ==> NewRowsUpTo(rows, i, nextId)[j].chunk.SingleChunk?
    decreases i
  {
    if i > 0 {
      var before := NewRowsUpTo(rows, i - 1, nextId);
      var split := SplitRows(rows[i - 1], Remaining(rows[i - 1]), nextId + |before|);
      NewRowsUpToHoldOneChunk(rows, i - 1, nextId);
      forall j | 0 <= j < |split|
        ensures split[j].chunk.SingleChunk?
      {
        SplitRowsAt(rows[i - 1], Remaining(rows[i - 1]), nextId + |before|, j);
      }
    }
  }

  /** Every row the migration adds holds a single chunk. */
  lemma NewRowsHoldOneChunk(rows: seq<SourceRow>, nextId: nat)
    ensures forall i :: 0 <= i < |NewRows(rows, nextId)| ==> NewRows(rows, nextId)[i].chunk.SingleChunk?
  {
    NewRowsUpToHoldOneChunk(rows, |rows|, nextId);
  }

  /** Rows that hold no list are left as they are. */
  lemma {:induction false} MigratedRowsFixed(rows: seq<SourceRow>)
    requires forall i :: 0 <= i < |rows| ==> !rows[i].chunk.ChunkList?
    ensures MigratedRows(rows) == rows
    decreases |rows|
  {
    if |rows| > 0 {
      var n := |rows| - 1;
      assert forall i :: 0 <= i < n ==> rows[..n][i] == rows[i];
      MigratedRowsFixed(rows[..n]);
      assert rows[..n] + [rows[n]] == rows;
    }
  }

  /** The migration can run twice: on the table it produced it changes no row and adds none. */
  lemma MigrationIdempotent(rows: seq<SourceRow>, nextId: nat, laterId: nat)
    ensures var after := MigratedRows(rows) + NewRows(rows, nextId);
            MigratedRows(after) == after && NewRows(after, laterId) == []
  {
    var after := MigratedRows(rows) + NewRows(rows, nextId);
    NewRowsHoldOneChunk(rows, nextId);
    forall i | 0 <= i < |after|
      ensures !after[i].chunk.ChunkList?
    {
      if i < |rows| {
        MigratedRowsAt(rows, i);
        MigratedRowKeepsSource(rows[i]);
      } else {
        assert after[i] == NewRows(rows, nextId)[i - |rows|];
      }
    }
    MigratedRowsFixed(after);
    NoNewRowsWhenMigrated(after, laterId);
  }

  /** The message-source table. */
  class SourceTable {
    var rows: seq<SourceRow>
    /** The id the next inserted row gets. */
    var nextId: nat

    constructor (rows: seq<SourceRow>, nextId: nat)
      ensures this.rows == rows && this.nextId == nextId
    {
      this.rows := rows;
      this.nextId := nextId;
    }

    /** One pass of the loop of `Migration012.migrate`: source `i` is rewritten in place and
        the rows for its remaining chunks are appended, numbered from `nextId`. */
    method MigrateOne(sources: seq<SourceRow>, i: nat, ghost start: nat, ghost added: seq<SourceRow>)
        returns (ghost next: seq<SourceRow>)
      modifies this
      requires i < |sources|
      requires added == NewRowsUpTo(sources, i, start) && nextId == start + |added|
      requires rows == Partial(sources, i, added)
      ensures next == NewRowsUpTo(sources, i + 1, start) && nextId == start + |next|
      ensures rows == Partial(sources, i + 1, next)
    {
      var updated, extra := MigrateSource(sources[i], nextId);
      AddedStep(sources, i, start, added, extra, nextId);
      PartialStep(sources, i, added, extra);
      rows := rows[i := updated] + extra;
      nextId := nextId + |extra|;
      next := added + extra;
    }

    /** `Migration012.migrate`: each source is rewritten in place, and the rows for the
        remaining chunks are inserted after all existing rows. */
    method Migrate()
      modifies this
      ensures rows == MigratedRows(old(rows)) + NewRows(old(rows), old(nextId))
      ensures nextId == old(nextId) + ExtraCount(old(rows))
    {
      var sources, start := rows, nextId;
      ghost var added: seq<SourceRow> := [];
      var i := 0;
      while i < |sources|
        invariant 0 <= i <= |sources|
        invariant added == NewRowsUpTo(sources, i, start)
        invariant nextId == start + |added|
        invariant rows == Partial(sources, i, added)
      {
        added := MigrateOne(sources, i, start, added);
        i := i + 1;
      }
      PartialDone(sources, added);
      NewRowsCount(sources, start);
    }
  }

  // ---------------------------------------------------------------- 0.2.0: mode names

  /** One conversation row under `UPDATE ... SET mode = to WHERE mode = from`. */
  function UpdateRow(c: ConversationRecord, from: string, to: string): (r: ConversationRecord)
    ensures r.mode == (if c.mode == from then to else c.mode)
    ensures r == c.(mode := r.mode)
  {
    if c.mode == from then c.(mode := to) else c
  }

  /** `UPDATE ... SET mode = to WHERE mode = from` on the conversation rows. */
  function UpdateMode(conversations: map<string, ConversationRecord>, from: string, to: string): (r: map<string, ConversationRecord>)
    ensures r.Keys == conversations.Keys
    ensures forall id :: id in r ==> r[id] == UpdateRow(conversations[id], from, to)
  {
    map id | id in conversations :: UpdateRow(conversations[id], from, to)
  }

  /** The new name of a mode: RAG, "Ai Expert" and ai_table_unified are renamed, every other
      mode is kept. */
  function NewModeName(mode: string): (r: string)
  {
    if mode == "RAG" then "rag"
    else if mode == "Ai Expert" then "ai_expert"
    else if mode == "ai_table_unified" then "ai_table"
    else mode
  }

  /** A new name is its own new name. */
  lemma NewModeNameIdempotent(mode: string)
    ensures NewModeName(NewModeName(mode)) == NewModeName(mode)
  {
  }

  /** The three updates in turn on one row rename its mode. */
  lemma UpdatesRename(c: ConversationRecord)
    ensures UpdateRow(UpdateRow(UpdateRow(c, "RAG", "rag"), "Ai Expert", "ai_expert"), "ai_table_unified", "ai_table")
            == c.(mode := NewModeName(c.mode))
  {
  }

  /** `Migration020.migrate`: the three updates in turn. */
  function MigrateModes(conversations: map<string, ConversationRecord>): (r: map<string, ConversationRecord>)
    ensures r.Keys == conversations.Keys
  {
    UpdateMode(UpdateMode(UpdateMode(conversations, "RAG", "rag"), "Ai Expert", "ai_expert"), "ai_table_unified", "ai_table")
  }

  /** The three updates rename each conversation's mode independently, and change nothing
      else. */
  lemma MigrateModesRenames(conversations: map<string, ConversationRecord>)
    ensures forall id :: id in conversations ==>
              MigrateModes(conversations)[id] == conversations[id].(mode := NewModeName(conversations[id].mode))
  {
    forall id | id in conversations
      ensures MigrateModes(conversations)[id] == conversations[id].(mode := NewModeName(conversations[id].mode))
    {
      UpdatesRename(conversations[id]);
    }
  }

  /** Tables with the same ids and the same row under each id are equal. */
  lemma SameRows(a: map<string, ConversationRecord>, b: map<string, ConversationRecord>)
    requires a.Keys == b.Keys
    requires forall id :: id in a ==> a[id] == b[id]
    ensures a == b
  {
  }

  /** Renamed modes are not renamed again: the migration can run twice. */
  lemma MigrateModesIdempotent(conversations: map<string, ConversationRecord>)
    ensures MigrateModes(MigrateModes(conversations)) == MigrateModes(conversations)
  {
    var once := MigrateModes(conversations);
    MigrateModesRenames(conversations);
    MigrateModesRenames(once);
    forall id | id in once
      ensures MigrateModes(once)[id] == once[id]
    {
      NewModeNameIdempotent(conversations[id].mode);
    }
    SameRows(MigrateModes(once), once);
  }
}
