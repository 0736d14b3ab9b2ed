/** The effective configuration of one PAM service, as far as decisions depend on it. */
module Config {
  import opened Common
  import Policy
  import Elevation

  datatype HeadlessAction = Allow | Deny | Password

  datatype ServiceConfig = ServiceConfig(
    enabled: bool, headlessAction: HeadlessAction, policy: Policy.Policy,
    rememberSeconds: u32, rememberScope: Elevation.RememberScope)
}
