/**
 The code the factory calls but does not define: the deep merge, the file
 loader, the three source providers, the import/protocol/reference handlers
 and the two path helpers. Each is a field of a `Runtime`, so every property
 of the factory holds for whatever those collaborators do.
 */
module Collaborators {
  import opened Js

  type Path = string

  /** A custom protocol handler, as registered by the caller. */
  type Handler = Value -> Result<Value>

  /** Protocol names mapped to their handlers. */
  type Protocols = map<string, Handler>

  datatype Runtime = Runtime(
    /** `Common.merge(high, low)`: deep-merges `high` over `low`. */
    merge: (Value, Value) -> Value,
    /** What `Provider.argv()`, `Provider.env()` and `Provider.convenience()` return. */
    argv: Value,
    env: Value,
    convenience: Value,
    /** `shush(file)`: loads and parses a file; a missing file fails with code MODULE_NOT_FOUND. */
    shush: Path -> Result<Value>,
    /** `Path.join(a, b)` and `Common.isAbsolute(p)`. */
    join: (Path, Path) -> Path,
    isAbsolute: Path -> bool,
    /** `Handlers.resolveImport(value, basedir)`, `Handlers.resolveCustom(store, protocols)`
        and `Handlers.resolveConfig(store)`; each settles to a value or rejects. */
    resolveImport: (Value, Path) -> Result<Value>,
    resolveCustom: (Value, Protocols) -> Result<Value>,
    resolveConfig: Value -> Result<Value>
  )
}
