/**
 * The two outside services a command talks to, reduced to what the bot observes of them:
 * the IRC client is the list of chat lines said so far, and the Twitch REST API is a set
 * of fixed answers (an absent answer stands for a failed request) plus a log of the game
 * changes it accepted.
 */
module Twitch {
  import opened Wrappers

  /** One chat line sent with `Say(channel, text)`. */
  datatype Line = Line(channel: string, text: string)

  /** The IRC client: everything said so far, in order. */
  class Irc {
    var said: seq<Line>

    constructor ()
      ensures said == []
    {
      said := [];
    }

    method Say(channel: string, text: string)
      modifies this
      ensures said == old(said) + [Line(channel, text)]
    {
      said := said + [Line(channel, text)];
    }
  }

  /** The lines `texts`, each said on `channel`. */
  function Lines(channel: string, texts: seq<string>): (r: seq<Line>)
    ensures |r| == |texts|
    ensures forall i :: 0 <= i < |r| ==> r[i] == Line(channel, texts[i])
  {
    if texts == [] then [] else [Line(channel, texts[0])] + Lines(channel, texts[1..])
  }

  lemma {:induction false} LinesAppend(channel: string, a: seq<string>, b: seq<string>)
    ensures Lines(channel, a + b) == Lines(channel, a) + Lines(channel, b)
  {
    assert forall i :: 0 <= i < |a + b| ==> Lines(channel, a + b)[i] == (Lines(channel, a) + Lines(channel, b))[i];
  }

  /** What `GetChannel` reports about the bot's channel. */
  datatype ChannelInfo = ChannelInfo(name: string, game: string)

  /** The Twitch REST API connection. */
  class Api {
    /** `GetChannel`'s answer; None when the request fails. */
    var channel: Option<ChannelInfo>
    /** The user IDs `GetChannelFollows` lists; None when the request fails. */
    var follows: Option<seq<int>>
    /** Whether `SetChannelGame` requests succeed. */
    var setOk: bool
    /** Every (channel, game) change the API accepted, in order. */
    var gameSets: seq<(string, string)>

    constructor (channel: Option<ChannelInfo>, follows: Option<seq<int>>, setOk: bool)
      ensures this.channel == channel && this.follows == follows && this.setOk == setOk
      ensures gameSets == []
    {
      this.channel := channel;
      this.follows := follows;
      this.setOk := setOk;
      gameSets := [];
    }

    method GetChannel() returns (r: Option<ChannelInfo>)
      ensures r == channel
    {
      r := channel;
    }

    method GetChannelFollows(channelName: string) returns (r: Option<seq<int>>)
      ensures r == follows
    {
      r := follows;
    }

    method SetChannelGame(channelName: string, game: string) returns (ok: bool)
      modifies this
      ensures ok == setOk
      ensures gameSets == old(gameSets) + (if ok then [(channelName, game)] else [])
      ensures channel == old(channel) && follows == old(follows) && setOk == old(setOk)
    {
      ok := setOk;
      if ok {
        gameSets := gameSets + [(channelName, game)];
      }
    }
  }

  /** A chat user as the IRC library reports them. */
  datatype User = User(username: string, displayName: string, userId: int)

  /** `CommandContext`: where a command was said, by whom, and at which user level. */
  datatype CommandContext = CommandContext(channel: string, user: User, userLevel: int)

  /**
   * The untyped context the older command handlers receive: either a `*CommandContext`
   * or a value of any other type, which they refuse.
   */
  datatype Ctx = Chat(cc: CommandContext) | Foreign

  const NotCommandContext := "ctx not a CommandContext"
}
