/** The project-creation wizard: which step follows once a project has
    been created, and the choices the form offers. Navigation on cancel
    is left out. */
module CreateProject {
  /** The wizard's steps. */
  datatype Stage = CreateProjectStage | CreateSource | CreateApplication | CreateSubscription

  datatype RetryLogicType = RetryLogicType(id: string, description: string)

  datatype WizardState = WizardState(projectStage: Stage, hashAlgorithms: seq<string>,
                                     retryLogicTypes: seq<RetryLogicType>, projectType: string)

  const HashAlgorithms: seq<string> := ["SHA256", "SHA512", "MD5", "SHA1", "SHA224", "SHA384", "SHA3_224",
                                        "SHA3_256", "SHA3_384", "SHA3_512", "SHA512_256", "SHA512_224"]

  const RetryLogicTypes: seq<RetryLogicType> := [RetryLogicType("linear", "Linear time retry"),
                                                 RetryLogicType("exponential", "Exponential time backoff")]

  /** The wizard as it opens: on the project form, for an outgoing project,
      offering twelve distinct hash algorithms (SHA256 first) and the two
      retry strategies. */
  function Initial(): (v: WizardState)
    ensures v.projectStage == CreateProjectStage && v.projectType == "outgoing"
    ensures |v.hashAlgorithms| == 12 && v.hashAlgorithms[0] == "SHA256"
    ensures forall i, j :: 0 <= i < j < |v.hashAlgorithms| ==> v.hashAlgorithms[i] != v.hashAlgorithms[j]
    ensures |v.retryLogicTypes| == 2 && v.retryLogicTypes[0].id == "linear" && v.retryLogicTypes[1].id == "exponential"
  {
    WizardState(CreateProjectStage, HashAlgorithms, RetryLogicTypes, "outgoing")
  }

  /** After the project is created, an incoming project continues with its
      first source and any other with its first application; nothing else
      in the wizard changes. */
  function CreateProjectStep(v: WizardState, newProjectType: string): (r: WizardState)
    ensures r.projectStage == CreateSource <==> newProjectType == "incoming"
    ensures r.projectStage == CreateApplication <==> newProjectType != "incoming"
    ensures r.(projectStage := v.projectStage) == v
  {
    v.(projectStage := if newProjectType == "incoming" then CreateSource else CreateApplication)
  }

  /** Creating the project always leaves the project form and never skips
      ahead to subscriptions. The step a second creation lands on depends
      only on the latest type, whatever step the first one left the wizard
      on: the step never reads the stage it starts from. */
  lemma CreateProjectLeavesForm(v: WizardState, t: string, u: string)
    ensures CreateProjectStep(v, t).projectStage != CreateProjectStage
    ensures CreateProjectStep(v, t).projectStage != CreateSubscription
    ensures CreateProjectStep(CreateProjectStep(v, u), t) == CreateProjectStep(v, t)
  {
  }
}
