/**
 * The bot registry of `TgApi` (lib/api/tgApi.js): a process-wide table
 * `botMap` from bot name to bot handle, with an idempotent `createBot`
 * and a read-only `getBot`.
 */
module TgApi {
  import opened Wrappers

  /** A handle to a node-telegram-bot-api client; its internals are foreign. */
  type Bot

  /** What one `createBot` call answers and the table it leaves behind. */
  datatype Registration = Registration(outcome: Outcome<bool>, botMap: map<string, Bot>)

  /**
   * `createBot` on the table `botMap`. `construct` is what evaluating
   * `new TelegramBot(config.token, config.options)` would give on this call:
   * `Some(bot)`, or `None` when reading `config` or the constructor throws.
   * It is consulted only for a name that is not yet registered.
   */
  function Create(botMap: map<string, Bot>, name: string, construct: Option<Bot>,
                  throwErrorFlag: bool := true): (r: Registration)
    // First registration wins: a registered name answers true and nothing changes.
    ensures name in botMap ==> r == Registration(Returned(true), botMap)
    // The call succeeds exactly when the name is registered afterwards.
    ensures r.outcome == Returned(true) <==> name in r.botMap
    // An unregistered name is stored with the bot that was just built.
    ensures name !in botMap && name in r.botMap ==> construct == Some(r.botMap[name])
    // No existing entry is removed or replaced ...
    ensures forall k :: k in botMap ==> k in r.botMap && r.botMap[k] == botMap[k]
    // ... and no entry other than `name` is added.
    ensures forall k :: k in r.botMap && k != name ==> k in botMap
    // A failed construction leaves the table as it was.
    ensures r.outcome != Returned(true) ==> r.botMap == botMap
    // The error policy: rethrow when the flag is set, otherwise answer false.
    ensures r.outcome == Threw <==> name !in botMap && construct.None? && throwErrorFlag
    ensures r.outcome == Returned(false) <==> name !in botMap && construct.None? && !throwErrorFlag
  {
    if name in botMap then
      Registration(Returned(true), botMap)
    else if construct.Some? then
      Registration(Returned(true), botMap[name := construct.value])
    else if throwErrorFlag then
      Registration(Threw, botMap)
    else
      Registration(Returned(false), botMap)
  }

  /** `getBot`'s answer on the table `botMap`: the stored bot, or `null`. */
  function Lookup(botMap: map<string, Bot>, name: string): (r: Option<Bot>)
    ensures r != None <==> name in botMap
    ensures r != None ==> r.value == botMap[name]
  {
    if name in botMap then Some(botMap[name]) else None
  }

  /** After `createBot` succeeds, `getBot` finds a bot under that name. */
  lemma LookupAfterCreate(botMap: map<string, Bot>, name: string, construct: Option<Bot>, throwErrorFlag: bool)
    requires Create(botMap, name, construct, throwErrorFlag).outcome == Returned(true)
    ensures Lookup(Create(botMap, name, construct, throwErrorFlag).botMap, name)
            == (if name in botMap then Some(botMap[name]) else construct)
  {
  }

  /**
   * Idempotence: after `createBot(name, c1)` succeeds, a later
   * `createBot(name, c2)`, whatever `c2` and its flag, changes nothing, and
   * `getBot(name)` still answers the bot from the first registration.
   */
  lemma RegisterTwice(botMap: map<string, Bot>, name: string, first: Bot, second: Option<Bot>,
                      flag1: bool, flag2: bool)
    requires name !in botMap
    ensures var once := Create(botMap, name, Some(first), flag1);
            var twice := Create(once.botMap, name, second, flag2);
            twice == Registration(Returned(true), once.botMap) && Lookup(twice.botMap, name) == Some(first)
  {
  }

  /** With the default flag, a failed construction is rethrown. */
  lemma DefaultFlagRethrows(botMap: map<string, Bot>, name: string)
    requires name !in botMap
    ensures Create(botMap, name, None) == Registration(Threw, botMap)
  {
  }

  /** The `TgApi` class; its one instance stands for the static `botMap`. */
  class TgApi {
    var botMap: map<string, Bot>

    /** `static botMap = {}`: the registry starts empty. */
    constructor()
      ensures botMap == map[]
    {
      botMap := map[];
    }

    /** `TgApi.createBot({name, config}, {throwErrorFlag = true})`. */
    method CreateBot(name: string, construct: Option<Bot>, throwErrorFlag: bool := true)
      returns (r: Outcome<bool>)
      modifies this
      ensures Registration(r, botMap) == Create(old(botMap), name, construct, throwErrorFlag)
    {
      if name !in botMap {
        match construct
        case Some(bot) =>
          botMap := botMap[name := bot];
        case None =>
          if throwErrorFlag {
            return Threw;
          } else {
            return Returned(false);
          }
      }
      return Returned(true);
    }

    /**
     * `TgApi.getBot({name}, {throwErrorFlag = true})`: reads the table and
     * changes nothing (there is no `modifies` clause).
     */
    method GetBot(name: string, throwErrorFlag: bool := true) returns (r: Outcome<Option<Bot>>)
      ensures r == Returned(Lookup(botMap, name))
    {
      if name in botMap {
        return Returned(Some(botMap[name]));
      }
      return Returned(None);
    }
  }
}
