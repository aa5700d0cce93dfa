/**
 * The application's records: the JavaScript values a profile row holds, their
 * truthiness, and the user and project records the dashboard views display.
 */
module Records {
  import opened Wrappers

  /**
   * A JavaScript value, as stored in a profile row or carried by a partial
   * update. `Obj` stands for any object or array (always truthy).
   */
  datatype Value = Undefined | Null | Bool(b: bool) | Num(n: int) | Str(s: string) | Obj

  /** JavaScript truthiness: what `if (v)` and `v && ...` test. */
  predicate Truthy(v: Value) {
    match v
    case Undefined => false
    case Null => false
    case Bool(b) => b
    case Num(n) => n != 0
    case Str(s) => s != ""
    case Obj => true
  }

  /** A JavaScript object: a profile row or a partial update, by field name. */
  type Fields = map<string, Value>

  /** A user as the dashboard views receive it. */
  datatype User = User(
    id: string,
    email: string,
    name: Option<string>,       // `name` may be missing on a row
    firstName: Option<string>,  // `first_name`
    role: string)

  /** A project as the dashboard views receive it. */
  datatype Project = Project(id: string, homeownerId: string, builderId: Option<string>)
}
