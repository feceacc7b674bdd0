/** The shared execution context steps read from and write to: a mutable
    map from artifact names to values. Only the two operations the file
    step uses are modelled: the map as a whole, which templates are rendered
    against, and item assignment, over string values. */
module ExecutionContext {

  class Context {
    /** The artifacts stored so far, by name. */
    var artifacts: map<string, string>

    constructor(initial: map<string, string>)
      ensures artifacts == initial
    {
      artifacts := initial;
    }

    /** `context[key] = value`: stores `value` under `key`, replacing any
        earlier value and keeping every other entry. */
    method Set(key: string, value: string)
      modifies this
      ensures artifacts == old(artifacts)[key := value]
    {
      artifacts := artifacts[key := value];
    }
  }
}
