/**
 * The extension methods on the parser (ArgumentsExtensions): the help test
 * and the explicitly named host type, both refusing a missing parser.
 */
module ArgumentsExtensions {
  import opened Common
  import opened CommandLine

  /** ShouldShowHelp as an extension method: the same answer as the parser's own. */
  function ShouldShowHelp(arguments: Arguments?): (r: Result<bool>)
    reads arguments
    ensures arguments == null ==> r == Err(Error(ArgumentNull, "arguments"))
    ensures arguments != null ==> r == HelpRequested(arguments.parameters)
  {
    if arguments == null then Err(Error(ArgumentNull, "arguments"))
    else arguments.ShouldShowHelp()
  }

  /** The value of `/hostType`, or "" when it was not given. */
  function GetHostType(arguments: Arguments?): (r: Result<string>)
    reads arguments
    ensures arguments == null ==> r == Err(Error(ArgumentNull, "arguments"))
    ensures arguments != null && "hosttype" in arguments.parameters ==> r == Ok(arguments.parameters["hosttype"])
    ensures arguments != null && "hosttype" !in arguments.parameters ==> r == Ok("")
  {
    if arguments == null then Err(Error(ArgumentNull, "arguments"))
    else
      assert Lower("HostType") == "hosttype";
      Ok(arguments.Get("HostType", ""))
  }

  /** `/hostType:value` on the command line names the host type `value`, unquoted. */
  lemma HostTypeSwitchNamesHostType(prefix: string, delimiter: char, value: string)
    requires IsSwitchPrefix(prefix) && IsDelimiter(delimiter)
    ensures GetString(Parse([prefix + "hostType" + [delimiter] + value]), "HostType", "") == StripQuotes(value)
  {
    assert Lower("hostType") == Lower("HostType");
    GetReadsSwitchValue(prefix, "hostType", delimiter, value, "");
  }
}
