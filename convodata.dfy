/**
 * The shapes of conversation data: a record as the server returns it, the
 * server's mapping from group key to records (an object read in `for…in`
 * order) and the `{key, values}` groups the view lists.
 */
module ConvoData {
  import opened Js

  /**
   * One call, email, SMS or custom activity. Every property may be missing;
   * `itemType` is the record's `type` property.
   */
  datatype ConvoRecord = ConvoRecord(
    id: Option<string>,
    itemType: Option<string>,
    createdDate: Option<string>,
    body: Option<string>,
    subject: Option<string>,
    phone: Option<string>,
    email: Option<string>)

  /**
   * The server's `{ groupKey: records }` object, as its own enumerable
   * properties in `for…in` order.
   */
  type ConvoMap = seq<(string, seq<ConvoRecord>)>

  /** The records sharing one group key. Groups have no `createdDate` of their own. */
  datatype Group = Group(key: string, values: seq<ConvoRecord>)
}
