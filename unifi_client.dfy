/**
 * The parts of the `unifi-client` library the core talks to. Every call into
 * the library is represented by the reply it produced, given as an input, and
 * its effect on the controller by a ghost log.
 */
module UnifiClient {
  import opened Wrappers

  /** The constructor argument of a `Controller`. */
  datatype ControllerProps = ControllerProps(url: string, username: string, password: string, strictSSL: bool)

  /** A site of the controller. */
  datatype Site = Site(name: string, desc: string)

  /** The data of one legacy firewall rule as the controller lists it. */
  datatype RuleData = RuleData(
    id: string,
    name: string,
    enabled: bool,
    ruleIndex: string,
    action: string,
    srcAddress: Wrappers.Option<string>,
    dstAddress: Wrappers.Option<string>,
    dstPort: Wrappers.Option<string>)

  /** An authenticated session with one controller. */
  class Controller {
    const props: ControllerProps
    /** The library's `logged` flag. */
    var logged: bool
    /** Number of login requests sent. */
    ghost var logins: nat
    /** Every rule sent by a save, in order. */
    ghost var saved: seq<RuleData>

    constructor (props: ControllerProps)
      ensures this.props == props && !logged && logins == 0 && saved == []
    {
      this.props := props;
      logged := false;
      logins := 0;
      saved := [];
    }

    /** `controller.login()`, whose reply is `reply`; a successful login sets `logged`. */
    method Login(reply: Outcome<string>) returns (r: Outcome<string>)
      modifies this`logged, this`logins
      ensures r == reply && logins == old(logins) + 1
      ensures logged == (old(logged) || reply.Pass?)
    {
      r := reply;
      logins := logins + 1;
      logged := logged || reply.Pass?;
    }

    /** `FWRule.save()` of a rule whose data is `rule`, answered by `reply`. */
    method Save(rule: RuleData, reply: Outcome<string>) returns (r: Outcome<string>)
      modifies this`saved
      ensures r == reply && saved == old(saved) + [rule]
    {
      r := reply;
      saved := saved + [rule];
    }
  }
}
