/** The values application code hands to the orchestrator: a runnable job
    type together with the optional capabilities the orchestrator probes
    for with type assertions. */
module Runners {
  import opened Errors
  import Crc32

  /** A `NewRunner` value.  Each optional field is present exactly when the
      dynamic type implements the corresponding interface. */
  datatype Runner = Runner(
    /** `reflect.TypeOf(j).String()` */
    typeName: string,
    /** `Identify()`, when the type implements `Identifier` */
    identity: Option<string>,
    /** `QName()`, when the type implements `QNamer` */
    queueName: Option<string>,
    /** the outcome of `JSON()`, when the type implements `JSONer` */
    customJson: Option<Result<Crc32.Bytes>>,
    /** the outcome of `json.Marshal(j)` */
    marshal: Result<Crc32.Bytes>)
}
