/**
 * The two ways the cloud builder raises `Kamal::ConfigurationError`, each
 * carrying the value its message interpolates.
 */
module Errors {
  import opened Strings

  const InvalidContextPrefix := "Context is not a valid file or directory: "
  const MissingBuilderPrefix := "Missing cloud builder name for driver: "

  datatype ConfigurationError =
    | InvalidContextPath(context: string)    // raised by `context_needed?`
    | MissingCloudBuilder(driver: string)    // raised by `builder_name`
  {
    /** The message text of the raised error: a fixed prefix, then the value. */
    function Message(): (m: string)
      ensures InvalidContextPath? ==> IsPrefix(InvalidContextPrefix, m) && m[|InvalidContextPrefix|..] == context
      ensures MissingCloudBuilder? ==> IsPrefix(MissingBuilderPrefix, m) && m[|MissingBuilderPrefix|..] == driver
    {
      match this
      case InvalidContextPath(c) => InvalidContextPrefix + c
      case MissingCloudBuilder(d) => MissingBuilderPrefix + d
    }
  }

  /** The message alone tells which error was raised and with what value. */
  lemma MessageDeterminesError(e1: ConfigurationError, e2: ConfigurationError)
    requires e1.Message() == e2.Message()
    ensures e1 == e2
  {
    // The two prefixes already differ in their first character.
    assert e1.Message()[0] == if e1.InvalidContextPath? then 'C' else 'M';
    assert e2.Message()[0] == if e2.InvalidContextPath? then 'C' else 'M';
  }
}
