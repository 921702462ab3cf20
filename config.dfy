/**
 * Configuration defaults and their validation (talisik/core/config.py).
 * Reading the environment and the global configuration are not modelled.
 */
module Config {
  import opened Wrappers

  const DefaultBaseUrl: string := "http://localhost:8000"
  const DefaultStorageBackend: string := "memory"
  const DefaultCodeLength: int := 7
  const DefaultMaxCustomCodeLength: int := 50

  datatype TalisikConfig = TalisikConfig(
    xataApiKey: string,
    xataDatabaseUrl: string,
    baseUrl: string,
    storageBackend: string,
    defaultCodeLength: int,
    maxCustomCodeLength: int,
    enableAnalytics: bool,
    enableExpiration: bool,
    debug: bool,
    logLevel: string)

  /** The configuration built from the two required fields and the defaults of all others. */
  function Default(xataApiKey: string, xataDatabaseUrl: string): (c: TalisikConfig)
    ensures c.xataApiKey == xataApiKey && c.xataDatabaseUrl == xataDatabaseUrl
    ensures c.baseUrl == "http://localhost:8000" && c.storageBackend == "memory"
    ensures c.defaultCodeLength == 7 && c.maxCustomCodeLength == 50
    ensures c.enableAnalytics && c.enableExpiration && !c.debug && c.logLevel == "INFO"
  {
    TalisikConfig(xataApiKey, xataDatabaseUrl, DefaultBaseUrl, DefaultStorageBackend,
                  DefaultCodeLength, DefaultMaxCustomCodeLength, true, true, false, "INFO")
  }

  /** Outcome of `validate`: it passes, or raises with the message of the first failed check. */
  datatype Validation = Pass | Fail(message: string)

  const CodeLengthMessage: string := "default_code_length must be between 1 and 50"
  const CustomLengthMessage: string := "max_custom_code_length must be between 1 and 100"
  const BackendMessage: string := "storage_backend must be 'memory' or 'xata'"

  predicate CodeLengthOk(c: TalisikConfig) { 1 <= c.defaultCodeLength <= 50 }
  predicate CustomLengthOk(c: TalisikConfig) { 1 <= c.maxCustomCodeLength <= 100 }
  predicate BackendOk(c: TalisikConfig) { c.storageBackend == "memory" || c.storageBackend == "xata" }

  /** The three checks, in the order the source performs them. */
  function Validate(c: TalisikConfig): (v: Validation)
    ensures v == Pass <==> CodeLengthOk(c) && CustomLengthOk(c) && BackendOk(c)
    ensures !CodeLengthOk(c) ==> v == Fail(CodeLengthMessage)
    ensures CodeLengthOk(c) && !CustomLengthOk(c) ==> v == Fail(CustomLengthMessage)
    ensures CodeLengthOk(c) && CustomLengthOk(c) && !BackendOk(c) ==> v == Fail(BackendMessage)
  {
    if c.defaultCodeLength < 1 || c.defaultCodeLength > 50 then Fail(CodeLengthMessage)
    else if c.maxCustomCodeLength < 1 || c.maxCustomCodeLength > 100 then Fail(CustomLengthMessage)
    else if c.storageBackend != "memory" && c.storageBackend != "xata" then Fail(BackendMessage)
    else Pass
  }

  /** The default configuration passes validation, whatever its two required fields. */
  lemma DefaultIsValid(xataApiKey: string, xataDatabaseUrl: string)
    ensures Validate(Default(xataApiKey, xataDatabaseUrl)) == Pass
  {
  }

  /** The backends `create_storage` knows (talisik/core/storage.py). */
  datatype Backend = Memory | Xata

  /** The backend `create_storage` picks for a name, or None where it raises ValueError. */
  function BackendFor(name: string): (b: Option<Backend>)
    ensures b == Some(Memory) <==> name == "memory"
    ensures b == Some(Xata) <==> name == "xata"
    ensures b == None <==> name != "memory" && name != "xata"
  {
    if name == "xata" then Some(Xata)
    else if name == "memory" then Some(Memory)
    else None
  }

  /** A configuration that passes validation names a backend that `create_storage` accepts. */
  lemma ValidConfigHasBackend(c: TalisikConfig)
    requires Validate(c) == Pass
    ensures BackendFor(c.storageBackend).Some?
  {
  }
}
