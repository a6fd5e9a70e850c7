/** The vault's HyperCore account as an object, in the manner of the simulator: actions pile up
    in a queue, and nothing happens until the environment processes or drops them. */
module CoreAccount {
  import opened CoreConstants
  import opened Prelude
  import opened Sums
  import opened VaultState

  /** The quote token and the two outcome tokens: their balances. */
  class TokenBook {
    var bal: nat
    var purse: map<Address, nat>
    var yes: map<Address, nat>
    var yesSupply: nat
    var no: map<Address, nat>
    var noSupply: nat

    function Value(): Tokens
      reads this
    {
      Tokens(bal, purse, yes, yesSupply, no, noSupply)
    }

    method MintPair(to: Address, amount: nat)
      modifies this
      ensures Value() == VaultState.MintPair(old(Value()), to, amount)
    {
      yes, yesSupply := Credit(yes, to, amount), yesSupply + amount;
      no, noSupply := Credit(no, to, amount), noSupply + amount;
    }

    /** A burn beyond the balance reverts. */
    method Burn(isYes: bool, from: Address, amount: nat) returns (r: Receipt)
      modifies this
      ensures Commits(if amount <= Balance(Side(old(Value()), isYes), from)
                      then Done(BurnSide(old(Value()), isYes, from, amount)) else Revert("BURN_FAILED"),
                      old(Value()), Value(), r)
    {
      if Balance(if isYes then yes else no, from) < amount {
        return Reverted("BURN_FAILED");
      }
      if isYes {
        yes, yesSupply := Debit(yes, from, amount), Monus(yesSupply, amount);
      } else {
        no, noSupply := Debit(no, from, amount), Monus(noSupply, amount);
      }
      return Success;
    }

    /** Takes quote from a purse into the deposit wallet. */
    method Take(from: Address, amount: nat)
      requires amount <= Balance(purse, from)
      modifies this
      ensures Value() == old(Value()).(purse := Debit(old(purse), from, amount))
    {
      purse := Debit(purse, from, amount);
    }

    method Pay(to: Address, amount: nat)
      requires amount <= bal
      modifies this
      ensures Value() == PayQuote(old(Value()), to, amount)
    {
      bal, purse := bal - amount, Credit(purse, to, amount);
    }
  }

  lemma RemoveKeepsFront<T>(s: seq<T>, i: nat)
    requires i < |s|
    ensures RemoveAt(s, i)[..i] == s[..i] && |RemoveAt(s, i)| == |s| - 1
    ensures forall j :: 0 <= j < i ==> RemoveAt(s, i)[j] == s[j]
  {
  }

  class CoreSim {
    const cfg: Config
    const tokens: TokenBook
    const mergeFeeBps: Bps
    var quote: nat
    var splitOutstanding: nat
    var transit: nat
    /** The sends held back come first, then what has not been looked at. */
    var queue: seq<Action>
    var held: nat
    var fate: map<nat, bool>
    var market: Market
    var credited: bool

    constructor (cfg: Config, tokens: TokenBook, mergeFeeBps: Bps)
      ensures this.cfg == cfg && this.tokens == tokens
      ensures Value() == Core(0, 0, 0, [], map[], Active, false, mergeFeeBps) && Valid()
    {
      this.cfg, this.tokens, this.mergeFeeBps := cfg, tokens, mergeFeeBps;
      quote, splitOutstanding, transit := 0, 0, 0;
      queue, held, fate, market, credited := [], 0, map[], Active, false;
    }

    predicate Valid()
      reads this
    {
      held <= |queue| && forall j :: 0 <= j < held ==> queue[j].Send?
    }

    function Value(): Core
      reads this
    {
      Core(quote, splitOutstanding, transit, queue, fate, market, credited, mergeFeeBps)
    }

    /** The world this account is part of, given the storage of the vault. */
    function Seen(v: Storage): World
      reads this, tokens
    {
      World(tokens.Value(), v, Value())
    }

    /** CoreWriter.sendRawAction. */
    method SendRawAction(a: Action)
      modifies this
      ensures Value() == old(Value()).(queue := old(queue) + [a]) && (old(Valid()) ==> Valid())
    {
      queue := queue + [a];
    }

    /** The deposit wallet takes in quote that Core will credit later. */
    method AcceptDeposit(amount: nat)
      modifies this
      ensures Value() == old(Value()).(transit := old(transit) + amount) && (old(Valid()) ==> Valid())
    {
      transit := transit + amount;
    }

    /** One queued action, and for an operation whether it ran, which is what gets attested. */
    method Apply(a: Action, ghost v: Storage)
      modifies this, tokens
      ensures held == old(held)
      ensures Seen(v) == ApplyAction(cfg, old(Seen(v)), a)
    {
      match a
      case Split(opId, wei) =>
        var collateral := CollateralOf(wei);
        if quote < collateral {
          fate := fate[opId := false];
          return;
        }
        quote := quote - collateral;
        splitOutstanding := splitOutstanding + collateral;
        fate := fate[opId := true];
      case Merge(opId, wei) =>
        var collateral := CollateralOf(wei);
        var back := collateral - MergeFee(Value(), collateral);
        if splitOutstanding < collateral || collateral > MAX_U64 || quote + back > MAX_U64 {
          fate := fate[opId := false];
          return;
        }
        splitOutstanding := splitOutstanding - collateral;
        quote := quote + back;
        fate := fate[opId := true];
      case Send(wei) =>
        if quote < wei {
          return;
        }
        var units := QuoteWeiToEvm(wei, cfg.scale);
        if units * cfg.scale.multiplier != wei {
          return;
        }
        quote := quote - wei;
        tokens.bal := tokens.bal + units;
    }

    /** Takes the action at `i` off the queue and applies it. */
    method ProcessAt(i: nat, ghost v: Storage)
      requires i < |queue|
      modifies this, tokens
      ensures Seen(v) == ProcessAction(cfg, old(Seen(v)), i, false)
      ensures queue == RemoveAt(old(queue), i) && held == old(held)
    {
      var a := queue[i];
      queue := RemoveAt(queue, i);
      Apply(a, v);
    }

    /** Runs what is queued, in order. With `defer` the sends are held back, in order, and only the
        operations run. Sends held back before stay so. Whatever happens is a run of single steps. */
    method ProcessActions(defer: bool, ghost v: Storage) returns (ghost trace: seq<Step>)
      requires Valid()
      modifies this, tokens
      ensures Valid() && held == |queue|
      ensures Seen(v) == Run(cfg, old(Seen(v)), trace)
      ensures forall s <- trace :: s.CoreProcesses? && !s.dropped
      ensures old(queue)[..old(held)] <= queue && (!defer ==> queue == old(queue)[..old(held)])
    {
      trace := [];
      while held < |queue|
        invariant Valid() && old(held) <= held && queue[..old(held)] == old(queue)[..old(held)]
        invariant !defer ==> held == old(held)
        invariant Seen(v) == Run(cfg, old(Seen(v)), trace)
        invariant forall s <- trace :: s.CoreProcesses? && !s.dropped
        decreases |queue| - held
      {
        if defer && queue[held].Send? {
          held := held + 1;
        } else {
          RunAppend(cfg, old(Seen(v)), trace, CoreProcesses(held, false));
          trace := trace + [CoreProcesses(held, false)];
          RemoveKeepsFront(queue, held);
          ProcessAt(held, v);
        }
      }
    }

    /** Lands the next `n` sends that were held back, in their order, whatever else is queued. */
    method ProcessSpotSends(n: nat, ghost v: Storage) returns (ghost trace: seq<Step>)
      requires Valid()
      modifies this, tokens
      ensures Valid() && held == old(held) - Min(n, old(held))
      ensures Seen(v) == Run(cfg, old(Seen(v)), trace)
      ensures |trace| == Min(n, old(held)) && forall s <- trace :: s == CoreProcesses(0, false)
      ensures queue == old(queue)[Min(n, old(held))..]
    {
      trace := [];
      var landed := 0;
      while landed < n && held > 0
        invariant landed <= Min(n, old(held)) && held == old(held) - landed
        invariant queue == old(queue)[landed..]
        invariant |trace| == landed && forall s <- trace :: s == CoreProcesses(0, false)
        invariant Seen(v) == Run(cfg, old(Seen(v)), trace)
      {
        RunAppend(cfg, old(Seen(v)), trace, CoreProcesses(0, false));
        trace := trace + [CoreProcesses(0, false)];
        ProcessAt(0, v);
        held := held - 1;
        landed := landed + 1;
      }
    }

    /** Core silently discards everything queued but the sends held back; every operation among it
        has failed. */
    method DropPendingActions(ghost v: Storage) returns (ghost trace: seq<Step>)
      requires Valid()
      modifies this
      ensures Valid() && held == old(held) && queue == old(queue)[..held]
      ensures Seen(v) == Run(cfg, old(Seen(v)), trace)
      ensures |trace| == |old(queue)| - held && forall s <- trace :: s == CoreProcesses(held, true)
    {
      trace := [];
      ghost var done := 0;
      while held < |queue|
        invariant held == old(held) && done <= |old(queue)| - held
        invariant queue == old(queue)[..held] + old(queue)[held + done..]
        invariant |trace| == done && forall s <- trace :: s == CoreProcesses(held, true)
        invariant Seen(v) == Run(cfg, old(Seen(v)), trace)
        decreases |queue|
      {
        RunAppend(cfg, old(Seen(v)), trace, CoreProcesses(held, true));
        trace := trace + [CoreProcesses(held, true)];
        var a := queue[held];
        queue := RemoveAt(queue, held);
        assert queue == old(queue)[..held] + old(queue)[held + done + 1..];
        if !a.Send? {
          fate := fate[a.opId := false];
        }
        done := done + 1;
      }
    }

    /** Credits all deposits in transit, without executing queued actions. */
    method ProcessTransfersOnly(ghost v: Storage)
      modifies this
      ensures Seen(v) == CreditTransit(cfg, old(Seen(v)), old(transit)) && held == old(held)
    {
      var credit := transit * cfg.scale.multiplier;
      if quote + credit <= MAX_U64 {
        quote, transit := quote + credit, 0;
      }
    }

    method CreditStray(wei: nat, ghost v: Storage)
      modifies this
      ensures Seen(v) == StrayCredit(old(Seen(v)), wei) && held == old(held)
    {
      if quote + wei <= MAX_U64 {
        quote := quote + wei;
      }
    }

    method CreditSettlement(ghost v: Storage)
      modifies this
      ensures Seen(v) == VaultState.CreditSettlement(old(Seen(v))) && held == old(held)
    {
      var back := splitOutstanding - MergeFee(Value(), splitOutstanding);
      if quote + back <= MAX_U64 {
        quote, splitOutstanding, credited := quote + back, 0, true;
      }
    }
  }

  /** Running one more step after a run. */
  lemma {:induction false} RunAppend(cfg: Config, w: World, steps: seq<Step>, last: Step)
    ensures Run(cfg, w, steps + [last]) == Next(cfg, Run(cfg, w, steps), last)
    decreases |steps|
  {
    if steps == [] {
      assert [last][1..] == [];
    } else {
      assert (steps + [last])[1..] == steps[1..] + [last];
      RunAppend(cfg, Next(cfg, w, steps[0]), steps[1..], last);
    }
  }
}
