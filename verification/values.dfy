/**
 The values the validator facade handles without looking inside them.

 Schemas (raw or pre-parsed), the data under validation, compiled artifacts,
 formatters, custom error collectors and message templates all come from
 collaborators outside the facade, so they are uninterpreted types here. Only
 the shape of JavaScript option objects matters to the facade, and `Prop`
 captures it.
 */
module Values {

  /** A JavaScript value that may be `undefined` (`None`). */
  datatype Option<+T> = None | Some(value: T)
  {
    /** The held value, or `default` when this is `undefined`. */
    function GetOr(default: T): (r: T)
      ensures Some? ==> r == value
      ensures None? ==> r == default
    {
      match this
      case Some(v) => v
      case None => default
    }
  }

  /**
   One named property of a JavaScript object. `Missing` means the object has
   no own property of that name; `Own(v)` means it has one, whose value may be
   `undefined` (`Own(None)`). `Object.assign` copies `Own(None)` as well, so
   the two must be told apart.
   */
  datatype Prop<+T> = Missing | Own(held: Option<T>)
  {
    /** What reading the property yields: `undefined` unless it holds a value. */
    function Read(): (r: Option<T>)
      ensures r.Some? <==> (Own? && held.Some?)
      ensures r.Some? ==> r == held
    {
      match this
      case Missing => None
      case Own(v) => v
    }
  }

  /** A rule schema, raw (`{ field: 'required|email' }`) or pre-parsed (`t.schema(...)`). */
  type Schema

  /** The data record handed to the executor. */
  type Data

  /** What the external compiler produces from a schema and its messages. */
  type Artifact

  /** An error formatter. */
  type Formatter

  /** A custom error collector callback. */
  type Collector

  /** One custom message template. */
  type Message

  /** Custom messages, keyed by field or rule. */
  type Messages = map<string, Message>

  /** The compiler's entry point: builds an artifact from a schema and its messages. */
  type Compiler = (Schema, Messages) -> Artifact
}
