/**
 * The per-user table store: the two converters between the app's table shape and
 * the store's shape, and the save and fetch operations over an abstract document
 * store that keeps one collection of records per user.
 */
module FirestoreService {
  import opened Wrappers
  import opened Interfaces

  const SaveUserIdRequired := "User ID is required to save a table."
  const FetchUserIdRequired := "User ID is required to fetch tables."

  /** The number of records one fetch returns at most. */
  const FetchLimit := 5

  function Min(a: int, b: int): int {
    if a <= b then a else b
  }

  /** Wraps every row in a `{cells: row}` record. */
  function WrapRows(rows: seq<seq<string>>): (r: seq<FirestoreRowData>)
    ensures |r| == |rows|
    ensures forall i :: 0 <= i < |r| ==> r[i].cells == rows[i]
  {
    if rows == [] then [] else [FirestoreRowData(rows[0])] + WrapRows(rows[1..])
  }

  /** Takes the `cells` out of every row record. */
  function UnwrapRows(rows: seq<FirestoreRowData>): (r: seq<seq<string>>)
    ensures |r| == |rows|
    ensures forall i :: 0 <= i < |r| ==> r[i] == rows[i].cells
  {
    if rows == [] then [] else [rows[0].cells] + UnwrapRows(rows[1..])
  }

  /** The app's table in the store's shape: same header, the i-th row wrapped as the i-th record. */
  function ConvertToFirestoreFormat(appData: AppTableData): (r: FirestoreCompatibleTableData)
    ensures r.header == appData.header
    ensures |r.rows| == |appData.rows|
    ensures forall i :: 0 <= i < |r.rows| ==> r.rows[i].cells == appData.rows[i]
  {
    FirestoreCompatibleTableData(appData.header, WrapRows(appData.rows))
  }

  /** The store's table in the app's shape: same header, the i-th record's cells as the i-th row. */
  function ConvertFromFirestoreFormat(firestoreData: FirestoreCompatibleTableData): (r: AppTableData)
    ensures r.header == firestoreData.header
    ensures |r.rows| == |firestoreData.rows|
    ensures forall i :: 0 <= i < |r.rows| ==> r.rows[i] == firestoreData.rows[i].cells
  {
    AppTableData(firestoreData.header, UnwrapRows(firestoreData.rows))
  }

  /** Decoding what was encoded gives back the app's table. */
  lemma RoundTrip(t: AppTableData)
    ensures ConvertFromFirestoreFormat(ConvertToFirestoreFormat(t)) == t
  {
  }

  /** Encoding what was decoded gives back the stored table: a row record has no field besides `cells`. */
  lemma ReverseRoundTrip(s: FirestoreCompatibleTableData)
    ensures ConvertToFirestoreFormat(ConvertFromFirestoreFormat(s)) == s
  {
  }

  /** A record as the store holds it. */
  type Document = StoredTable<FirestoreCompatibleTableData>

  /** A record as a fetch returns it, with its table data back in the app's shape. */
  type FetchedTable = StoredTable<AppTableData>

  /** Records in the order they were saved: strictly increasing creation stamps. */
  predicate Chronological(docs: seq<Document>) {
    forall i, j :: 0 <= i < j < |docs| ==> docs[i].createdAt < docs[j].createdAt
  }

  /**
   * The result of `orderBy('createdAt', 'desc'), limit(n)` over a chronological
   * collection: the `n` newest records (or all of them), newest first.
   */
  function QueryNewest(docs: seq<Document>, n: nat): (q: seq<Document>)
    requires Chronological(docs)
    ensures |q| == Min(n, |docs|)
    ensures forall i :: 0 <= i < |q| ==> q[i] == docs[|docs| - 1 - i]
    ensures forall i, j :: 0 <= i < j < |q| ==> q[i].createdAt > q[j].createdAt
    ensures forall k, i :: 0 <= k < |docs| - |q| && 0 <= i < |q| ==> docs[k].createdAt < q[i].createdAt
  {
    var count := Min(n, |docs|);
    seq(count, i requires 0 <= i < count => docs[|docs| - 1 - i])
  }

  /** A document as a fetch returns it: only the table data is decoded, every other field is copied. */
  function Decoded(doc: Document): (t: FetchedTable)
    ensures t.id == doc.id && t.userId == doc.userId && t.params == doc.params && t.createdAt == doc.createdAt
    ensures ConvertToFirestoreFormat(t.tableData) == doc.tableData
  {
    ReverseRoundTrip(doc.tableData);
    StoredTable(doc.id, doc.userId, doc.params, ConvertFromFirestoreFormat(doc.tableData), doc.createdAt)
  }

  /**
   * The document store: for every user the collection of that user's records, in
   * the order they were saved, and the clock that stamps the next save.
   */
  class TableStore {
    var collections: map<string, seq<Document>>
    var clock: Timestamp

    /** Every record sits in its owner's collection, has an id, and was stamped before `clock`. */
    ghost predicate Valid()
      reads this
    {
      forall u :: u in collections ==> WellFormedCollection(u, collections[u], clock)
    }

    static ghost predicate WellFormedCollection(userId: string, docs: seq<Document>, clock: Timestamp) {
      && Chronological(docs)
      && forall i :: 0 <= i < |docs| ==> docs[i].userId == userId && docs[i].id.Some? && docs[i].createdAt < clock
    }

    /** The collection of one user; a user who never saved has none. */
    function Records(userId: string): seq<Document>
      reads this
    {
      if userId in collections then collections[userId] else []
    }

    constructor ()
      ensures Valid()
      ensures collections == map[] && clock == 0
    {
      collections := map[];
      clock := 0;
    }

    /**
     * `saveTableToFirestore`: rejects an empty user id; otherwise adds one record to
     * the user's collection and returns its id. `newId` is the id the store chooses
     * for the new document; `writeError` is the store's failure, if the write fails,
     * which is passed on to the caller.
     */
    method SaveTableToFirestore(userId: string, params: TableGenerationParams, tableData: AppTableData,
                                newId: string, writeError: Option<string>)
      returns (r: Result<string, string>)
      requires Valid()
      modifies this
      ensures Valid()
      ensures userId == "" ==> r == Failure(SaveUserIdRequired)
      ensures userId != "" && writeError.Some? ==> r == Failure(writeError.value)
      ensures r.Failure? ==> collections == old(collections) && clock == old(clock)
      ensures userId != "" && writeError.None? ==>
        && r == Success(newId)
        && clock == old(clock) + 1
        && Records(userId) == old(Records(userId)) + [StoredTable(Some(newId), userId, params, ConvertToFirestoreFormat(tableData), old(clock))]
        && collections.Keys == old(collections).Keys + {userId}
        && forall u :: u != userId ==> Records(u) == old(Records(u))
    {
      if userId == "" {
        return Failure(SaveUserIdRequired);
      }
      var firestoreReadyTableData := ConvertToFirestoreFormat(tableData);
      var newTableDoc := StoredTable(Some(newId), userId, params, firestoreReadyTableData, clock);
      if writeError.Some? {
        return Failure(writeError.value);
      }
      collections := collections[userId := Records(userId) + [newTableDoc]];
      clock := clock + 1;
      return Success(newId);
    }

    /**
     * `getLastFiveUserTables`: rejects an empty user id; otherwise returns the user's
     * newest records, at most five, newest first, each with its table data decoded
     * back to the app's shape. `readError` is the store's failure, if the read fails.
     */
    method GetLastFiveUserTables(userId: string, readError: Option<string>)
      returns (r: Result<seq<FetchedTable>, string>)
      requires Valid()
      ensures userId == "" ==> r == Failure(FetchUserIdRequired)
      ensures userId != "" && readError.Some? ==> r == Failure(readError.value)
      ensures userId != "" && readError.None? ==> r.Success?
      ensures r.Success? ==>
        var docs, tables := Records(userId), r.value;
        && |tables| == Min(FetchLimit, |docs|)
        && (forall i :: 0 <= i < |tables| ==> tables[i] == Decoded(docs[|docs| - 1 - i]))
        && (forall i, j :: 0 <= i < j < |tables| ==> tables[i].createdAt > tables[j].createdAt)
        && (forall k, i :: 0 <= k < |docs| - |tables| && 0 <= i < |tables| ==> docs[k].createdAt < tables[i].createdAt)
    {
      if userId == "" {
        return Failure(FetchUserIdRequired);
      }
      if readError.Some? {
        return Failure(readError.value);
      }
      assert WellFormedCollection(userId, Records(userId), clock);
      var querySnapshot := QueryNewest(Records(userId), FetchLimit);
      var tables: seq<FetchedTable> := [];
      for i := 0 to |querySnapshot|
        invariant |tables| == i
        invariant forall k :: 0 <= k < i ==> tables[k] == Decoded(querySnapshot[k])
      {
        tables := tables + [Decoded(querySnapshot[i])];
      }
      return Success(tables);
    }
  }

  /** A record saved and then fetched carries the table data that was saved. */
  lemma SavedTableFetchesBack(userId: string, params: TableGenerationParams, tableData: AppTableData,
                              id: string, stamp: Timestamp)
    ensures Decoded(StoredTable(Some(id), userId, params, ConvertToFirestoreFormat(tableData), stamp))
         == StoredTable(Some(id), userId, params, tableData, stamp)
  {
    RoundTrip(tableData);
  }
}
