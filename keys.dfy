/**
 * Log keys (src/index.ts:26-29): caller-made objects told apart by reference, each carrying
 * a `description` or a `name` to show in log lines.
 */
module Keys {
  import opened Wrappers

  /**
   * The two shapes a key may have. A key with a description may also carry a name, which is
   * then never shown.
   */
  datatype KeyLabel =
    | Described(description: string, alsoNamed: Option<string>)
    | Named(name: string)

  /** A key: an object, so two keys with equal labels are still different keys. */
  class LogKey {
    const shape: KeyLabel

    constructor (shape: KeyLabel)
      ensures this.shape == shape
    {
      this.shape := shape;
    }
  }

  /**
   * The text a log line shows for a key: its description when it has one (even if it also has
   * a name), else its name.
   */
  function KeyDisplay(k: LogKey): (s: string)
    ensures k.shape.Described? ==> s == k.shape.description
    ensures k.shape.Named? ==> s == k.shape.name
  {
    match k.shape
    case Described(description, _) => description
    case Named(name) => name
  }

  /** Two keys built from the same label are distinct keys that display the same. */
  method TwinKeys(shape: KeyLabel) returns (k1: LogKey, k2: LogKey)
    ensures k1 != k2
    ensures KeyDisplay(k1) == KeyDisplay(k2)
    ensures k1.shape == shape && k2.shape == shape
  {
    k1 := new LogKey(shape);
    k2 := new LogKey(shape);
  }
}
