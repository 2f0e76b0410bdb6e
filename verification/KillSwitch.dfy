// The auditable kill switch: paper/kill_switch.py.

module KillSwitches {
  import opened Trading
  import opened PaperOrders

  datatype Entry = Entry(triggered: bool, reason: string, actor: string)

  datatype Kill = Kill(triggered: bool, reason: Option<string>, actor: Option<string>, history: seq<Entry>)

  const ARMED := Kill(false, None, None, [])

  // A blank reason raises and leaves the switch as it was.
  function Activate(k: Kill, reason: string, actor: string): Kill {
    if Blank(reason) then k
    else Kill(true, Some(reason), Some(actor), k.history + [Entry(true, reason, actor)])
  }

  function Reset(k: Kill, reason: string, actor: string): Kill {
    if Blank(reason) || Blank(actor) then k
    else Kill(false, None, Some(actor), k.history + [Entry(false, reason, actor)])
  }

  class KillSwitch {
    var triggered: bool
    var reason: Option<string>
    var actor: Option<string>
    var history: seq<Entry>

    function View(): Kill
      reads this
    {
      Kill(triggered, reason, actor, history)
    }

    constructor ()
      ensures View() == ARMED
    {
      triggered, reason, actor, history := false, None, None, [];
    }

    method Trip(why: string, who: string) returns (ok: bool)
      modifies this
      ensures ok == !Blank(why)
      ensures View() == Activate(old(View()), why, who)
    {
      if Blank(why) {
        return false;
      }
      triggered, reason, actor := true, Some(why), Some(who);
      history := history + [Entry(true, why, who)];
      return true;
    }

    method Rearm(why: string, who: string) returns (ok: bool)
      modifies this
      ensures ok == !(Blank(why) || Blank(who))
      ensures View() == Reset(old(View()), why, who)
    {
      if Blank(why) || Blank(who) {
        return false;
      }
      triggered, reason, actor := false, None, Some(who);
      history := history + [Entry(false, why, who)];
      return true;
    }
  }
}
