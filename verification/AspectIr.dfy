/** The intermediate representation of an aspect module; qualified names are pairs. */
module AspectIr {
  import opened Common
  import opened Syntax
  import opened Graph

  /** An (aspect, name) or (bundle, name) pair. */
  type Key = (string, string)

  datatype AspectDef = AspectDef(parents: set<string>, conflicts: set<string>, provided: set<string>,
                                 required: set<string>)

  datatype BundleDef = BundleDef(includes: set<string>, parents: set<string>)

  datatype ActionDef = ActionDef(declared: bool, body: Option<Expr>)

  datatype EffectKind =
    | ReadState | WriteState | ReadRegistry | WriteRegistry | ConsumeRegistryGrant | EmitEvent | CallContract
    | DeployContract | ScheduleUpgrade | ExecuteUpgrade | CrossShardOutboxAppend
    | UsePermitCertificate | UseBridgeCertificate | Abort

  datatype Target = AnyContract | ExactContract(contract: string)

  /** An allowlist entry: `name` is a method for calls and a state for reads. */
  datatype Pattern = Pattern(target: Target, name: string)

  /** A method's policy; its invariants are kept as the expressions they resolve to. */
  datatype Policy = Policy(effects: set<EffectKind>, calls: set<Pattern>, stateReads: set<Pattern>,
                           invariants: set<Expr>)

  /** The heads with a built-in meaning, to the evaluator, to effect inference, or to both. */
  datatype Form =
    | SafeAdd | SafeSub | SafeMul | SafeDiv | Require | If | Begin | And | Or | Not
    | Equal | Less | LessEqual | Greater | GreaterEqual
    | StateGet | ContractStateGet | StateSet | RegistryGet | RegistrySet | RegistryConsume
    | Emit | CallContractForm | PermitVerify | BridgeVerify | OutboxAppend
    | DeployForm | ScheduleForm | ExecuteForm | AbortForm
  {
    /** Forms only effect inference knows; the evaluator takes them for action names. */
    predicate InferenceOnly() {
      DeployForm? || ScheduleForm? || ExecuteForm? || AbortForm?
    }

    /** Forms to which effect inference attaches an effect. */
    predicate HasEffect() {
      || StateGet? || ContractStateGet? || StateSet? || RegistryGet? || RegistrySet? || RegistryConsume?
      || Emit? || CallContractForm? || PermitVerify? || BridgeVerify? || OutboxAppend? || InferenceOnly()
    }
  }

  /** Atoms with a meaning of their own. */
  datatype Reserved = TrueAtom | FalseAtom | TxSender | MsgSender | CurrentContract | BlockHeight | BlockTimestamp

  /** The reserved vocabulary; every theorem holds for any choice of it, `DETTA` being the language's own. */
  datatype Language = Language(forms: map<string, Form>, reserved: map<string, Reserved>)

  const DETTA: Language := Language(
    map[
      "safe-add" := SafeAdd, "safe-sub" := SafeSub, "safe-mul" := SafeMul, "safe-div" := SafeDiv,
      "require" := Require, "if" := If, "begin" := Begin, "and" := And, "or" := Or, "not" := Not,
      "=" := Equal, "<" := Less, "<=" := LessEqual, ">" := Greater, ">=" := GreaterEqual,
      "state-get" := StateGet, "contract-state-get" := ContractStateGet, "state-set!" := StateSet,
      "registry-get" := RegistryGet, "registry-set!" := RegistrySet, "registry-consume!" := RegistryConsume,
      "emit!" := Emit, "call-contract!" := CallContractForm, "permit-verify!" := PermitVerify,
      "bridge-verify!" := BridgeVerify, "cross-shard-outbox-append!" := OutboxAppend,
      "deploy-contract!" := DeployForm, "schedule-upgrade!" := ScheduleForm, "execute-upgrade!" := ExecuteForm,
      "abort" := AbortForm],
    map[
      "True" := TrueAtom, "False" := FalseAtom, "tx.sender" := TxSender, "msg.sender" := MsgSender,
      "current-contract" := CurrentContract, "block-height" := BlockHeight, "block-timestamp" := BlockTimestamp])

  /** A module, together with the vocabulary its expressions are read in. */
  datatype Module = Module(
    language: Language,
    aspects: map<string, AspectDef>,
    bundles: map<string, BundleDef>,
    projections: map<Key, Expr>,
    actions: map<Key, ActionDef>,
    storage: set<Key>,
    registries: set<Key>,
    policies: map<Key, Policy>)

  function AspectParents(m: Module): Graph<string> {
    map a | a in m.aspects :: m.aspects[a].parents
  }

  function BundleParents(m: Module): Graph<string> {
    map b | b in m.bundles :: m.bundles[b].parents
  }

  function Includes(m: Module, bundle: string): set<string> {
    if bundle in m.bundles then m.bundles[bundle].includes else {}
  }

  function FormOf(m: Module, head: string): Option<Form> {
    if head in m.language.forms then Some(m.language.forms[head]) else None
  }

  /** The head of a list expression, if it is an atom. */
  function HeadName(e: Expr): Option<string> {
    if e.List? && e.items != [] && e.items[0].Atom? then Some(e.items[0].name) else None
  }

  /** A three-item list headed by the equality form. */
  predicate IsEquation(m: Module, items: seq<Expr>) {
    |items| == 3 && items[0].Atom? && FormOf(m, items[0].name) == Some(Equal)
  }

  /** The actions called `name`, over all aspects. */
  function ActionsNamed(m: Module, name: string): set<Key> {
    set k | k in m.actions && k.1 == name
  }
}
