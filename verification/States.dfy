/** The maintenance-cycle states, the legal transition table and the boot-resume table. */
module States {
  import opened Wrappers

  datatype State =
    | IDLE | PRECHECK | REFRESHING | DISCOVERING_UPDATES | UPGRADING | CHECKING_REBOOT
    | REBOOT_PENDING | REBOOTING | POST_REBOOT | VERIFYING | HEALTH_CHECKING | NOTIFYING
    | COMPLETED | FAILED

  predicate Terminal(s: State) {
    s.COMPLETED? || s.FAILED?
  }

  const POST_REBOOT_RESUMABLE: set<State> := {POST_REBOOT, VERIFYING, HEALTH_CHECKING, NOTIFYING}

  function Arcs(src: State): set<State> {
    match src
    case IDLE => {PRECHECK}
    case PRECHECK => {REFRESHING, REBOOT_PENDING, FAILED}
    case REFRESHING => {DISCOVERING_UPDATES, PRECHECK, FAILED}
    case DISCOVERING_UPDATES => {UPGRADING, CHECKING_REBOOT, PRECHECK, FAILED}
    case UPGRADING => {CHECKING_REBOOT, PRECHECK, FAILED}
    case CHECKING_REBOOT => {REBOOT_PENDING, VERIFYING, FAILED}
    case REBOOT_PENDING => {REBOOTING, VERIFYING, FAILED}
    case REBOOTING => {POST_REBOOT, FAILED}
    case POST_REBOOT => {VERIFYING, PRECHECK, FAILED}
    case VERIFYING => {HEALTH_CHECKING, FAILED}
    case HEALTH_CHECKING => {NOTIFYING, FAILED}
    case NOTIFYING => {COMPLETED}
    case COMPLETED => {}
    case FAILED => {}
  }

  predicate IsLegal(src: State, dst: State) {
    dst in Arcs(src)
  }

  function ResumeTarget(persisted: State, bootChanged: bool): Option<State> {
    if Terminal(persisted) || persisted.IDLE? then None
    else if persisted.REBOOTING? then (if bootChanged then Some(POST_REBOOT) else None)
    else if bootChanged && persisted in POST_REBOOT_RESUMABLE then Some(persisted)
    else None
  }

  // ---- the state's text, as it is written to disk ----

  function StateName(s: State): string {
    match s
    case IDLE => "IDLE"
    case PRECHECK => "PRECHECK"
    case REFRESHING => "REFRESHING"
    case DISCOVERING_UPDATES => "DISCOVERING_UPDATES"
    case UPGRADING => "UPGRADING"
    case CHECKING_REBOOT => "CHECKING_REBOOT"
    case REBOOT_PENDING => "REBOOT_PENDING"
    case REBOOTING => "REBOOTING"
    case POST_REBOOT => "POST_REBOOT"
    case VERIFYING => "VERIFYING"
    case HEALTH_CHECKING => "HEALTH_CHECKING"
    case NOTIFYING => "NOTIFYING"
    case COMPLETED => "COMPLETED"
    case FAILED => "FAILED"
  }

  /** `State(text)`: the state with that value, or none. */
  function ParseState(text: string): (r: Option<State>)
    ensures r.Some? ==> StateName(r.value) == text
    ensures r.None? ==> forall s :: StateName(s) != text
  {
    if text == "IDLE" then Some(IDLE)
    else if text == "PRECHECK" then Some(PRECHECK)
    else if text == "REFRESHING" then Some(REFRESHING)
    else if text == "DISCOVERING_UPDATES" then Some(DISCOVERING_UPDATES)
    else if text == "UPGRADING" then Some(UPGRADING)
    else if text == "CHECKING_REBOOT" then Some(CHECKING_REBOOT)
    else if text == "REBOOT_PENDING" then Some(REBOOT_PENDING)
    else if text == "REBOOTING" then Some(REBOOTING)
    else if text == "POST_REBOOT" then Some(POST_REBOOT)
    else if text == "VERIFYING" then Some(VERIFYING)
    else if text == "HEALTH_CHECKING" then Some(HEALTH_CHECKING)
    else if text == "NOTIFYING" then Some(NOTIFYING)
    else if text == "COMPLETED" then Some(COMPLETED)
    else if text == "FAILED" then Some(FAILED)
    else None
  }

  lemma ParseOfName(s: State)
    ensures ParseState(StateName(s)) == Some(s)
  {
  }

  // ---- shape of the table ----

  /** Position along a cycle that needs no second pass; terminal states come last. */
  function Rank(s: State): nat {
    match s
    case IDLE => 0
    case PRECHECK => 1
    case REFRESHING => 2
    case DISCOVERING_UPDATES => 3
    case UPGRADING => 4
    case CHECKING_REBOOT => 5
    case REBOOT_PENDING => 6
    case REBOOTING => 7
    case POST_REBOOT => 8
    case VERIFYING => 9
    case HEALTH_CHECKING => 10
    case NOTIFYING => 11
    case COMPLETED => 12
    case FAILED => 12
  }

  /** Every arc climbs, except the four that go back to PRECHECK. */
  lemma ArcsClimb(src: State, dst: State)
    requires IsLegal(src, dst)
    ensures Rank(src) < Rank(dst)
         || (dst.PRECHECK? && src in {REFRESHING, DISCOVERING_UPDATES, UPGRADING, POST_REBOOT})
  {
  }
}
