/** The switch record shared by the SDK and the admin service (`model.SwitchModel`). */
module Model {
  import opened Wrappers
  import opened FactorFilter

  /** A switch: its audit fields, version, namespace, name, current environment, rule tree,
      description, cache flag and approval status. Timestamps are not modelled. */
  datatype SwitchModel = SwitchModel(
    id: nat,
    createdBy: string,
    updateBy: string,
    version: int,
    namespaceTag: string,
    name: string,
    currentEnvTag: string,
    rules: Option<RuleNode>,
    description: string,
    useCache: bool,
    approverStatus: string)
}
