/**
 * The shared data shapes of the table generator: the table as the app holds it,
 * the table as the document store needs it, the generation parameters and the
 * stored record.
 */
module Interfaces {
  import opened Wrappers

  /** The table as the app and the text-generation response use it. */
  datatype AppTableData = AppTableData(header: seq<string>, rows: seq<seq<string>>)

  /** One row wrapped in a single-field record, because the store cannot hold nested arrays. */
  datatype FirestoreRowData = FirestoreRowData(cells: seq<string>)

  /** The table as the document store holds it. */
  datatype FirestoreCompatibleTableData = FirestoreCompatibleTableData(header: seq<string>, rows: seq<FirestoreRowData>)

  /**
   * The user-supplied inputs of one generation request. The temperature is only
   * copied around, never computed with.
   */
  datatype TableGenerationParams = TableGenerationParams(
    tableTitle: string,
    tableDesc: string,
    tableRows: int,
    tableItemLength: string,
    tableTemp: real)

  /** The store's creation stamp; a larger stamp means a later save. */
  type Timestamp = nat

  /**
   * A stored table record: document id, owner, generation parameters, table data
   * and creation stamp. The data shape `D` is the store's shape while the record
   * sits in the store and the app's shape once it has been fetched and decoded.
   */
  datatype StoredTable<D> = StoredTable(
    id: Option<string>,
    userId: string,
    params: TableGenerationParams,
    tableData: D,
    createdAt: Timestamp)
}

/** The shapes the authentication layer shares with its consumers. */
module AuthInterfaces {
  import opened Wrappers

  /** The app's read-only projection of a signed-in user of the identity service. */
  datatype User = User(uid: string, email: Option<string>)

  /** What the identity service reports when a call fails. */
  datatype AuthError = AuthError(code: string, message: string)

  datatype LoginFormValues = LoginFormValues(email: string, password: string)

  datatype UserFormValues = UserFormValues(email: string, password: string)

  /**
   * The data part of the authentication context. The three operations the context
   * also carries are the methods of the provider.
   */
  datatype IAuth = IAuth(user: Option<User>, loading: bool, isAuthLoading: bool)
}
