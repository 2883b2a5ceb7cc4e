/**
 The history of one notification: what the manager did to it, in order, and the automaton that says
 which histories are legal. The automaton is the reference that the manager's handlers are proved
 to follow; the lemmas below spell out what acceptance by it means.
 */
module Lifecycle {
  import opened Categories
  import opened Implementations

  /** Why play was called. */
  datatype Cause = Reply | Fallback | Upgrade

  datatype Action =
    | Begin                    // start_notification
    | AskPlay                  // play permission requested
    | Refused                  // the class had an owner; no request was made
    | Cancel                   // finished before the play reply
    | LateReply                // the play reply of a cancelled notification
    | Sounded(cause: Cause, granted: bool)  // play succeeded, with play_granted as it was then
    | Failed(cause: Cause)     // play returned FALSE
    | Silence(granted: bool)   // stop
    | AskStop                  // stop permission requested
    | Shutdown(order: Order, granted: bool, left: Held)
    | Destroy

  datatype Phase = Waiting | Begun | Asked | Turned | Cancelled | Late | Active | Stopping | Shut | Gone | Broken

  /** grant: play_granted at the last play that succeeded. */
  datatype Life = Life(phase: Phase, asked: bool, sounding: bool, grant: bool, fellBack: bool, upgraded: bool)

  const BORN := Life(Waiting, false, false, false, false, false)

  predicate IsPlay(a: Action, c: Cause) {
    (a.Sounded? || a.Failed?) && a.cause == c
  }

  /** What shutdown may find: see Released. */
  predicate Clean(a: Action) {
    a.Shutdown? && Released(a.order, a.granted, a.left)
  }

  function NextPhase(l: Life, a: Action): Phase {
    match l.phase
    case Waiting => if a.Begin? then Begun else if Clean(a) then Shut else Broken
    case Begun =>
      if a.AskPlay? then Asked else if a.Refused? then Turned else if IsPlay(a, Reply) then Active else Broken
    case Asked => if IsPlay(a, Reply) then Active else if a.Cancel? then Cancelled else Broken
    case Turned => if a.Cancel? then Turned else Broken
    case Cancelled => if a.LateReply? then Late else Broken
    case Late => if a.AskStop? then Stopping else Broken
    case Active =>
      // the stop must find the mode that the play has chosen
      if l.sounding then if a == Silence(l.grant) then Active else Broken
      // the fallback file and the upgrade may each restart a silent notification, once
      else if (IsPlay(a, Fallback) && !l.fellBack) || (IsPlay(a, Upgrade) && !l.upgraded) then Active
      else if a.AskStop? && l.asked then Stopping
      else if Clean(a) && !l.asked then Shut
      else Broken
    case Stopping => if Clean(a) then Shut else Broken
    case Shut => if a.Destroy? then Gone else Broken
    case Gone => Broken
    case Broken => Broken
  }

  function Next(l: Life, a: Action): Life {
    Life(
      NextPhase(l, a),
      l.asked || a.AskPlay? || a.Refused?,
      a.Sounded? || (l.sounding && !a.Silence?),
      if a.Sounded? then a.granted else l.grant,
      l.fellBack || IsPlay(a, Fallback),
      l.upgraded || IsPlay(a, Upgrade))
  }

  function LifeOf(t: seq<Action>): Life {
    if t == [] then BORN else Next(LifeOf(t[..|t| - 1]), t[|t| - 1])
  }

  predicate Legal(t: seq<Action>) {
    !LifeOf(t).phase.Broken?
  }

  lemma LifeOfAppend(t: seq<Action>, a: Action)
    ensures LifeOf(t + [a]) == Next(LifeOf(t), a)
  {
    assert (t + [a])[..|t|] == t;
  }

  lemma {:induction false} PrefixesAreLegal(t: seq<Action>, k: nat)
    requires k <= |t| && Legal(t)
    ensures Legal(t[..k])
  {
    if k < |t| {
      PrefixesAreLegal(t[..|t| - 1], k);
      assert t[..|t| - 1][..k] == t[..k];
    } else {
      assert t[..k] == t;
    }
  }

  // ---------------------------------------------------------------- what a legal history promises

  datatype Kind = Starts | Asks | Plays | Stops | StopRequests | Shutdowns | Destructions

  predicate Is(a: Action, k: Kind) {
    match k
    case Starts => a.Begin?
    case Asks => a.AskPlay?
    case Plays => a.Sounded? || a.Failed?
    case Stops => a.Silence?
    case StopRequests => a.AskStop?
    case Shutdowns => a.Shutdown?
    case Destructions => a.Destroy?
  }

  function One(b: bool): nat {
    if b then 1 else 0
  }

  function Count(t: seq<Action>, k: Kind): nat {
    if t == [] then 0 else Count(t[..|t| - 1], k) + One(Is(t[|t| - 1], k))
  }

  /** The counts that the phase determines. */
  lemma {:induction false} RequestTally(t: seq<Action>)
    requires Legal(t)
    ensures var p := LifeOf(t).phase;
            && Count(t, Starts) <= One(!p.Waiting?)
            && Count(t, Asks) <= One(!p.Waiting? && !p.Begun?)
            && Count(t, StopRequests) <= One(p.Stopping? || p.Shut? || p.Gone?)
            && Count(t, Shutdowns) == One(p.Shut? || p.Gone?)
            && Count(t, Destructions) == One(p.Gone?)
  {
    if t != [] {
      PrefixesAreLegal(t, |t| - 1);
      RequestTally(t[..|t| - 1]);
    }
  }

  lemma {:induction false} PlayTally(t: seq<Action>)
    requires Legal(t)
    ensures var l := LifeOf(t);
            && Count(t, Plays) == (if Count(t, Plays) == 0 then 0 else 1) + One(l.fellBack) + One(l.upgraded)
            && (l.phase.Waiting? || l.phase.Begun? || l.phase.Asked? || l.phase.Turned? || l.phase.Cancelled? || l.phase.Late?
                ==> Count(t, Plays) == 0)
            && (l.phase.Active? ==> Count(t, Plays) > 0)
            && Count(t, Plays) >= Count(t, Stops) + One(l.sounding)
            && (l.sounding ==> l.phase.Active?)
  {
    if t != [] {
      PrefixesAreLegal(t, |t| - 1);
      PlayTally(t[..|t| - 1]);
    }
  }

  /**
   Whatever the interleaving: started, asked, stopped and destroyed at most once, and played at most
   three times.
   */
  lemma LegalCounts(t: seq<Action>)
    requires Legal(t)
    ensures Count(t, Starts) <= 1 && Count(t, Asks) <= 1 && Count(t, StopRequests) <= 1
    ensures Count(t, Destructions) <= Count(t, Shutdowns) <= 1
    ensures Count(t, Plays) <= 3
  {
    RequestTally(t);
    PlayTally(t);
  }

  /** While it sounds, the last action was the play, with the grant that is remembered. */
  lemma {:induction false} SoundingSincePlay(t: seq<Action>)
    requires Legal(t) && t != []
    ensures LifeOf(t).sounding <==> t[|t| - 1].Sounded?
    ensures t[|t| - 1].Sounded? ==> LifeOf(t).phase.Active? && LifeOf(t).grant == t[|t| - 1].granted
  {
    PrefixesAreLegal(t, |t| - 1);
    PlayTally(t);
    PlayTally(t[..|t| - 1]);
  }

  /** After a play comes its stop, in the mode of the play, and a stop comes after its play. */
  lemma StopFollowsPlay(t: seq<Action>, a: Action)
    requires Legal(t + [a])
    ensures a.Silence? <==> t != [] && t[|t| - 1].Sounded?
    ensures a.Silence? ==> a.granted == t[|t| - 1].granted
  {
    LifeOfAppend(t, a);
    assert (t + [a])[..|t|] == t;
    PrefixesAreLegal(t + [a], |t|);
    if t != [] {
      SoundingSincePlay(t);
    }
  }

  /**
   Play and stop strictly alternate: nothing at all comes between a play and its stop, so nothing is
   shut down while it is playing, and play_granted is at the stop what it was at the play.
   */
  lemma PlayAndStopAlternate(t: seq<Action>, i: nat)
    requires Legal(t) && i < |t|
    ensures t[i].Silence? <==> i > 0 && t[i - 1].Sounded?
    ensures t[i].Silence? ==> t[i].granted == t[i - 1].granted
    ensures t[i].Sounded? && i + 1 < |t| ==> t[i + 1].Silence?
  {
    PrefixesAreLegal(t, i + 1);
    assert t[..i + 1] == t[..i] + [t[i]];
    StopFollowsPlay(t[..i], t[i]);
    if i + 1 < |t| {
      PrefixesAreLegal(t, i + 2);
      assert t[..i + 2] == t[..i + 1] + [t[i + 1]];
      StopFollowsPlay(t[..i + 1], t[i + 1]);
    }
  }

  const ENDING: seq<Phase> := [Late, Stopping, Shut, Gone]

  /** One action after another: late reply, stop request, shutdown, destruction. */
  predicate IsEnding(t: seq<Action>) {
    && |t| <= 4
    && (|t| > 0 ==> t[0].LateReply?)
    && (|t| > 1 ==> t[1].AskStop?)
    && (|t| > 2 ==> t[2].Shutdown?)
    && (|t| > 3 ==> t[3].Destroy?)
  }

  /**
   A stop that overtakes the permission reply wins: after Cancel nothing is played any more. If the
   request was made, what follows is its late reply, one stop request and the end, and nothing else.
   */
  lemma {:induction false} CancelWins(t: seq<Action>, k: nat)
    requires Legal(t) && k < |t| && t[k].Cancel?
    ensures LifeOf(t).phase.Turned? ==> forall j :: k < j < |t| ==> t[j].Cancel?
    ensures !LifeOf(t).phase.Turned? ==>
              IsEnding(t[k + 1..]) && LifeOf(t).phase == if |t| == k + 1 then Cancelled else ENDING[|t| - k - 2]
  {
    PrefixesAreLegal(t, |t| - 1);
    var u, a := t[..|t| - 1], t[|t| - 1];
    if |t| == k + 1 {
      assert t[k + 1..] == [];
    } else {
      CancelWins(u, k);
      assert t[k + 1..] == u[k + 1..] + [a];
    }
  }


  /** A notification whose request the policy refused is never played, asked for or stopped. */
  lemma {:induction false} RefusedNeverPlays(t: seq<Action>, k: nat)
    requires Legal(t) && k < |t| && t[k].Refused?
    ensures LifeOf(t).phase.Turned? && forall j :: k < j < |t| ==> t[j].Cancel?
  {
    PrefixesAreLegal(t, |t| - 1);
    if k + 1 < |t| {
      RefusedNeverPlays(t[..|t| - 1], k);
    }
  }

  lemma {:induction false} RefusedIsRemembered(t: seq<Action>)
    requires Legal(t)
    ensures LifeOf(t).phase.Turned? <==> Refused in t
  {
    if t != [] {
      var u := t[..|t| - 1];
      PrefixesAreLegal(t, |t| - 1);
      RefusedIsRemembered(u);
      assert t == u + [t[|t| - 1]];
    }
  }
}
