/**
  The conversation-state table: one integer tag per chat, held in a single map that the
  dispatcher creates and hands to both flow managers by reference. Each flow owns a range of
  tags, so one map serves both without a tag meaning two things.
*/
module States {

  /** No flow is waiting for input from the chat. */
  const StateNone: int := 0

  /** Broadcast builder: waiting for the text, the media, the buttons. */
  const BroadcastAwaitText: int := 10
  const BroadcastAwaitMedia: int := 11
  const BroadcastAwaitButtons: int := 12

  /** Welcome editor: waiting for the welcome text, for the button spec. */
  const AwaitingWelcomeMessage: int := 20
  const AwaitingWelcomeButtons: int := 21

  predicate IsBroadcastTag(t: int) {
    BroadcastAwaitText <= t <= BroadcastAwaitButtons
  }

  predicate IsWelcomeTag(t: int) {
    t == AwaitingWelcomeMessage || t == AwaitingWelcomeButtons
  }

  /** The two flows' tags and the idle tag are pairwise distinct. */
  lemma TagsDisjoint(t: int)
    ensures !(IsBroadcastTag(t) && IsWelcomeTag(t))
    ensures !IsBroadcastTag(StateNone) && !IsWelcomeTag(StateNone)
  {
  }

  /** The shared map from chat (or admin) ID to state tag; an absent entry reads as StateNone. */
  class StateTable {
    var tags: map<int, int>

    constructor ()
      ensures tags == map[]
    {
      tags := map[];
    }
  }
}
