/**
 * Sequences of `createBot` and `getBot` calls against the one process-wide
 * `botMap`, and what the registry promises across them: entries are never
 * replaced, only created names appear, lookups change nothing, and every
 * later `getBot` answers the bot of the first successful registration.
 */
module TgApiHistory {
  import opened Wrappers
  import opened TgApi

  /** One call to the registry, with the arguments it received. */
  datatype Call =
    | CreateBotCall(name: string, construct: Option<Bot>, throwErrorFlag: bool)
    | GetBotCall(name: string, throwErrorFlag: bool)

  /** What one call answers. */
  datatype Response =
    | CreateBotResponse(created: Outcome<bool>)
    | GetBotResponse(bot: Outcome<Option<Bot>>)

  /** The table after `call` runs on `botMap`. */
  function Step(botMap: map<string, Bot>, call: Call): map<string, Bot>
  {
    match call
    case CreateBotCall(name, construct, flag) => Create(botMap, name, construct, flag).botMap
    case GetBotCall(_, _) => botMap
  }

  /** What `call` answers when it runs on `botMap`. */
  function Answer(botMap: map<string, Bot>, call: Call): Response
  {
    match call
    case CreateBotCall(name, construct, flag) => CreateBotResponse(Create(botMap, name, construct, flag).outcome)
    case GetBotCall(name, _) => GetBotResponse(Returned(Lookup(botMap, name)))
  }

  /** The table after `calls` run one after another, starting from `botMap`. */
  function Replay(botMap: map<string, Bot>, calls: seq<Call>): map<string, Bot>
    decreases |calls|
  {
    if calls == [] then botMap else Replay(Step(botMap, calls[0]), calls[1..])
  }

  /** Running `a` and then `b` is running `a + b`. */
  lemma {:induction false} ReplayAppend(botMap: map<string, Bot>, a: seq<Call>, b: seq<Call>)
    ensures Replay(botMap, a + b) == Replay(Replay(botMap, a), b)
    decreases |a|
  {
    if a != [] {
      assert (a + b)[0] == a[0];
      assert (a + b)[1..] == a[1..] + b;
      ReplayAppend(Step(botMap, a[0]), a[1..], b);
    } else {
      assert a + b == b;
    }
  }

  /** No call ever removes or replaces a registered bot. */
  lemma {:induction false} ReplayKeepsEntries(botMap: map<string, Bot>, calls: seq<Call>)
    ensures forall k :: k in botMap ==> k in Replay(botMap, calls) && Replay(botMap, calls)[k] == botMap[k]
    decreases |calls|
  {
    if calls != [] {
      ReplayKeepsEntries(Step(botMap, calls[0]), calls[1..]);
    }
  }

  /** Every name in the table was there before or came from a `createBot` whose bot was built. */
  lemma {:induction false} ReplayNewNames(botMap: map<string, Bot>, calls: seq<Call>)
    ensures forall k :: k in Replay(botMap, calls) ==>
              k in botMap || exists i :: 0 <= i < |calls| && calls[i].CreateBotCall? && calls[i].name == k &&
                                         calls[i].construct.Some?
    decreases |calls|
  {
    if calls != [] {
      var rest := calls[1..];
      ReplayNewNames(Step(botMap, calls[0]), rest);
      forall k | k in Replay(botMap, calls) && k !in botMap
        ensures exists i :: 0 <= i < |calls| && calls[i].CreateBotCall? && calls[i].name == k &&
                            calls[i].construct.Some?
      {
        if k in Step(botMap, calls[0]) {
          assert calls[0].CreateBotCall? && calls[0].name == k && calls[0].construct.Some?;
        } else {
          var i :| 0 <= i < |rest| && rest[i].CreateBotCall? && rest[i].name == k && rest[i].construct.Some?;
          assert calls[i + 1] == rest[i];
        }
      }
    }
  }

  /**
   * A run of `getBot` calls leaves the replayed table as it was. This only
   * unfolds `Step`, which defines a lookup step as the identity. That
   * `getBot` never mutates the table is stated by `TgApi.GetBot` itself,
   * which has no `modifies` clause.
   */
  lemma {:induction false} LookupsChangeNothing(botMap: map<string, Bot>, calls: seq<Call>)
    requires forall i :: 0 <= i < |calls| ==> calls[i].GetBotCall?
    ensures Replay(botMap, calls) == botMap
    decreases |calls|
  {
    if calls != [] {
      LookupsChangeNothing(botMap, calls[1..]);
    }
  }

  /**
   * Once `createBot(name, …)` at position `i` of a history has answered
   * true, every later `getBot(name)` at position `j` answers the bot
   * stored at that moment, whatever other calls, including further
   * `createBot(name, …)` calls with other configurations, come in between.
   */
  lemma LaterLookupSeesFirstBot(botMap: map<string, Bot>, calls: seq<Call>, i: nat, j: nat)
    requires i < j < |calls|
    requires calls[i].CreateBotCall? && Answer(Replay(botMap, calls[..i]), calls[i]) == CreateBotResponse(Returned(true))
    requires calls[j].GetBotCall? && calls[j].name == calls[i].name
    ensures calls[i].name in Replay(botMap, calls[..i + 1])
    ensures Answer(Replay(botMap, calls[..j]), calls[j])
            == GetBotResponse(Returned(Some(Replay(botMap, calls[..i + 1])[calls[i].name])))
  {
    var name := calls[i].name;
    var before := Replay(botMap, calls[..i]);
    assert calls[..i + 1] == calls[..i] + [calls[i]];
    ReplayAppend(botMap, calls[..i], [calls[i]]);
    assert Replay(before, [calls[i]]) == Step(before, calls[i]);
    var after := Replay(botMap, calls[..i + 1]);
    assert name in after;
    assert calls[..j] == calls[..i + 1] + calls[i + 1..j];
    ReplayAppend(botMap, calls[..i + 1], calls[i + 1..j]);
    ReplayKeepsEntries(after, calls[i + 1..j]);
  }
}
