/** The errors of the deployment guard chain. Both validators (the current
    one in internal/model and the older one in pkg/deploy) report the same
    conditions with the same messages. */
module Validation {

  datatype ValidationError =
    | DeploymentNil
    | SystemRequired
    | ApplicationNameRequired
    | SystemNameInvalid
    | ApplicationNameInvalid
    | ClusterTypeRequired
    | EnvironmentRequired
    | ImageRequired
    | ImageFormat

  /** The text of the error the Go code returns. */
  function Message(e: ValidationError): string
  {
    match e
    case DeploymentNil => "deployment is nil"
    case SystemRequired => "system is required"
    case ApplicationNameRequired => "application name is required"
    case SystemNameInvalid => "system name must only contain alphanumeric characters and hyphens"
    case ApplicationNameInvalid => "application name must only contain alphanumeric characters and hyphens"
    case ClusterTypeRequired => "cluster type is required"
    case EnvironmentRequired => "environment is required"
    case ImageRequired => "image is required"
    case ImageFormat => "image must be in the format name@digest or name:environment@digest"
  }

  /** Position of the check that reports `e` in the guard chain. */
  function Stage(e: ValidationError): nat
  {
    match e
    case DeploymentNil => 0
    case SystemRequired => 1
    case ApplicationNameRequired => 2
    case SystemNameInvalid => 3
    case ApplicationNameInvalid => 4
    case ClusterTypeRequired => 5
    case EnvironmentRequired => 6
    case ImageRequired => 7
    case ImageFormat => 8
  }
}
