/** The errors the options resolver returns. */
module Errors {
  import opened Kube

  datatype Error =
    | MissingDefaultLSRef
    | MissingDefaultCLFRef
    | MissingCLFRef
    | MultipleCLFRef
      /** An output type without a case in the extractor. */
    | MissingImplementation(outputType: string, outputName: string)
      /** A block the output's type needs is nil. */
    | MissingField(field: string, outputName: string)
      /** The resource store has no object of this kind under this key. */
    | NotFound(kind: Kind, key: ObjectKey)
      /** Listing the addon installations failed. */
    | ListFailed
}
