/** The enumerations shared by every component (schemas/common.py) and the
    risk factors the validators emit. */
module Common {
  import opened Strings

  /** RiskLevel: the verdict an assessment or a validator returns. */
  datatype RiskLevel = Allow | Review | Deny

  function RiskLevelName(l: RiskLevel): string {
    match l
    case Allow => "ALLOW"
    case Review => "REVIEW"
    case Deny => "DENY"
  }

  /** The strictness order: ALLOW < REVIEW < DENY. */
  function Strictness(l: RiskLevel): nat {
    match l
    case Allow => 0
    case Review => 1
    case Deny => 2
  }

  /** ActionType: the action the client asks about. */
  datatype ActionType = Login | Checkout | SensitiveAction

  /** The enum value, as it is stored and compared. */
  function ActionName(a: ActionType): string {
    match a
    case Login => "login"
    case Checkout => "checkout"
    case SensitiveAction => "sensitive_action"
  }

  /** The names are pairwise distinct, so they identify the action. */
  lemma ActionNameInjective(a: ActionType, b: ActionType)
    ensures ActionName(a) == ActionName(b) <==> a == b
  {
  }

  /** Parsing a request's action_type string. */
  function ParseAction(s: string): (r: Wrappers.Option<ActionType>)
    ensures r.Some? ==> ActionName(r.value) == s
    ensures forall a: ActionType :: ActionName(a) == s ==> r == Wrappers.Some(a)
  {
    if s == "login" then Wrappers.Some(Login)
    else if s == "checkout" then Wrappers.Some(Checkout)
    else if s == "sensitive_action" then Wrappers.Some(SensitiveAction)
    else Wrappers.None
  }

  /** The severity of a risk factor and the priority of a recommendation. */
  datatype Severity = Low | Medium | High

  /** A validator's risk factor: its key in the risk_factors dict (or its
      `type`) and its severity. */
  datatype Factor = Factor(name: string, severity: Severity)

  /** `sum(1 for f in factors if f['severity'] == s)` */
  function CountSeverity(fs: seq<Factor>, s: Severity): (r: nat)
    ensures r <= |fs|
  {
    if fs == [] then 0
    else (if fs[0].severity == s then 1 else 0) + CountSeverity(fs[1..], s)
  }

  lemma {:induction false} CountSeverityAppend(a: seq<Factor>, b: seq<Factor>, s: Severity)
    ensures CountSeverity(a + b, s) == CountSeverity(a, s) + CountSeverity(b, s)
    decreases |a|
  {
    if a == [] {
      assert a + b == b;
    } else {
      assert (a + b)[1..] == a[1..] + b;
      CountSeverityAppend(a[1..], b, s);
    }
  }

  /** The count is zero exactly when no factor has that severity. */
  lemma {:induction false} CountSeverityZero(fs: seq<Factor>, s: Severity)
    ensures CountSeverity(fs, s) == 0 <==> forall i :: 0 <= i < |fs| ==> fs[i].severity != s
    decreases |fs|
  {
    if fs != [] {
      CountSeverityZero(fs[1..], s);
      assert forall i :: 1 <= i < |fs| ==> fs[i] == fs[1..][i - 1];
    }
  }

  /** The names of a factor list, in order. */
  function Names(fs: seq<Factor>): (r: seq<string>)
    ensures |r| == |fs|
    ensures forall i :: 0 <= i < |fs| ==> r[i] == fs[i].name
  {
    seq(|fs|, i requires 0 <= i < |fs| => fs[i].name)
  }
}
