/** The closed action policy (src/eva_ai/actions/policy.py). */
module ActionPolicy {
  import opened ActionTables

  datatype PolicyContext = PolicyContext(scopedConnector: bool, managedDraft: bool, authenticatedDiscard: bool, exactApproval: bool)

  function Evaluate(c: Capability, x: PolicyContext): PolicyDecision {
    if !x.scopedConnector then Deny
    else match c
      case CreateDraft => Allow
      case UpdateDraft => if x.managedDraft then Allow else Deny
      case SendDraft => if x.managedDraft then RequireApproval else Deny
      case DeleteDraft => if x.managedDraft && x.authenticatedDiscard then Allow else Deny
  }

  /** No context lets a send through without an approval, and only a create needs no managed draft; and what the
      policy allows, or asks approval for, is exactly this. */
  lemma PolicyIsClosed(c: Capability, x: PolicyContext)
    ensures Evaluate(Capability.SendDraft, x) != Allow
    ensures !Evaluate(c, x).Deny? ==> x.scopedConnector && (c.CreateDraft? || x.managedDraft)
    ensures Evaluate(Capability.DeleteDraft, x).Allow? ==> x.authenticatedDiscard
    ensures Evaluate(c, x) == Evaluate(c, x.(exactApproval := !x.exactApproval))
    ensures Evaluate(c, x).Allow? <==>
              x.scopedConnector && (c.CreateDraft? || (x.managedDraft && (c.UpdateDraft? || (c.DeleteDraft? && x.authenticatedDiscard))))
    ensures Evaluate(c, x).RequireApproval? <==> x.scopedConnector && x.managedDraft && c.SendDraft?
  {
  }
}
