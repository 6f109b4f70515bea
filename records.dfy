/**
 * Values shared by the Salesforce side and the database side of the
 * synchronisation: the JSON-like values a Salesforce record holds, records as
 * dictionaries from field name to value, and the exceptions the Python code
 * raises, as data.
 */
module Records {

  datatype Option<+T> = None | Some(value: T)

  /** The exceptions the modelled code raises or reports. */
  datatype Fault =
    | KeyError(key: string)        // a dictionary key or a named SQL parameter is missing
    | TypeError                    // `del` on a value that is not a dictionary
    | CannotAdapt(param: string)   // psycopg2 cannot bind a nested dictionary as an SQL parameter
    | DatabaseError                // the server or the connection fails the statement
    | SubqueryMultipleRows         // a scalar subquery returned more than one row
    | UniqueViolation(id: int)     // a row with this id already exists
    | InterfaceError               // `cursor()` on a closed connection
    | UnboundLocalError            // a `finally` clause closes a cursor that was never created

  datatype Result<+T> = Success(value: T) | Failure(fault: Fault)

  /** A value of a Salesforce record as the REST client decodes it. */
  datatype Value =
    | Null
    | Bool(b: bool)
    | Int(i: int)
    | Str(s: string)
    | Dict(fields: map<string, Value>)

  /** A record (an OrderedDict in the source, without its key order). */
  type Record = map<string, Value>
}
