/**
 * The default storage provider chosen by the runtime (createDefaultStorageProvider in
 * dist/golem-js.mjs). The provider GolemNetwork builds from its data transfer protocol
 * option is in GolemNetworks.
 */
module Storage {
  import opened Wrappers

  /** A logger, named by its chain of child names. */
  datatype Logger = Logger(names: seq<string>)

  function Child(l: Logger, name: string): (c: Logger)
    ensures c.names == l.names + [name]
  {
    Logger(l.names + [name])
  }

  /** `custom` stands for a provider object handed over by the caller. */
  datatype StorageProvider =
    | GftpProvider(logger: Option<Logger>)
    | WebSocketBrowserProvider(logger: Option<Logger>)
    | NullProvider
    | CustomProvider(custom: string)

  /** The `storage` child of the logger, when one is given. */
  function StorageLogger(logger: Option<Logger>): (r: Option<Logger>)
    ensures r.None? <==> logger.None?
    ensures r.Some? ==> r.value.names == logger.value.names + ["storage"]
  {
    if logger.Some? then Some(Child(logger.value, "storage")) else None
  }

  /** `createDefaultStorageProvider`: GFTP under Node, else WebSocket in a browser, else none. */
  function CreateDefaultStorageProvider(isNode: bool, isBrowser: bool, logger: Option<Logger>): (r: StorageProvider)
    ensures r.GftpProvider? <==> isNode
    ensures r.WebSocketBrowserProvider? <==> !isNode && isBrowser
    ensures r.NullProvider? <==> !isNode && !isBrowser
    ensures !r.NullProvider? ==> r.logger == StorageLogger(logger)
  {
    if isNode then GftpProvider(StorageLogger(logger))
    else if isBrowser then WebSocketBrowserProvider(StorageLogger(logger))
    else NullProvider
  }
}
