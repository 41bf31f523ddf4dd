/** The exceptions the deployer can raise, as values. */
module Errors {

  /** Failures a YAML or JSON loader can report. */
  datatype ParseError =
    | ScannerError                  // ruamel.yaml's tokenizer rejected the text
    | JSONDecodeError               // json.load rejected the text
    | OtherParseError(name: string) // any other loader exception (it propagates)

  datatype Error =
    | KeyError(key: string)                           // subscript of a missing dict key
    | TypeError(detail: string)                       // a value of the wrong kind on a path, or `in` on a scalar
    | IndexError(detail: string)                      // random.choice of an empty list
    | ValueError(message: string)                     // an unsupported cluster provider
    | UnboundLocalError(name: string)                 // a local read before any assignment
    | AuthProviderError(message: string)              // whatever the identity provider raised
    | ParseFailure(error: ParseError)                 // a loader exception that was not caught
    | CalledProcessError(cmd: seq<string>, returncode: int) // subprocess.check_call saw a nonzero exit
    | RuntimeError                                    // raised after a failed health test
}
