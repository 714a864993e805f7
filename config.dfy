/** The configuration record every cache slot reads from its context. */
module StateCacheConfig {

  /**
   * The fields of the configuration record the hook consumes. The storage
   * backend field is not part of this record: the model's storage is the
   * slot's log of calls and the read result handed to the load step.
   */
  datatype Config = Config(enabled: bool, namespace: string, silence: bool, strict: bool)

  /** The context's default value; the namespace defaults to the package name. */
  function DefaultConfig(packageName: string): (c: Config)
    ensures c.enabled && !c.silence && !c.strict
    ensures c.namespace == packageName
  {
    Config(true, packageName, false, false)
  }
}
