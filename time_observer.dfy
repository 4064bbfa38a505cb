/**
 * The periodic time-observer token of the player screen
 * (`PlayerViewController.timeObserverToken`): at most one periodic time
 * observer is installed on the player at a time, and the token that the
 * player hands back is what removes it again.
 *
 * Tokens and player items are opaque type parameters; the token the player
 * issues is a parameter of the call that installs it.
 */
module TimeObserver {
  import opened Wrappers

  /** The part of `AVPlayer` the screen drives: its current item and its periodic time observers. */
  class Player<Token(==), Item> {
    var currentItem: Option<Item>
    var timeObservers: multiset<Token>

    constructor ()
      ensures currentItem == None && timeObservers == multiset{}
    {
      currentItem := None;
      timeObservers := multiset{};
    }

    method ReplaceCurrentItem(item: Option<Item>)
      modifies this`currentItem
      ensures currentItem == item
    {
      currentItem := item;
    }

    method AddPeriodicTimeObserver(token: Token)
      modifies this`timeObservers
      ensures timeObservers == old(timeObservers) + multiset{token}
    {
      timeObservers := timeObservers + multiset{token};
    }

    method RemoveTimeObserver(token: Token)
      modifies this`timeObservers
      ensures timeObservers == old(timeObservers) - multiset{token}
    {
      timeObservers := timeObservers - multiset{token};
    }
  }

  /** The observers a token slot accounts for: the held token, or none. */
  function Held<Token>(token: Option<Token>): (held: multiset<Token>)
    ensures |held| == if token.Some? then 1 else 0
    ensures forall t :: t in held ==> token == Some(t)
  {
    if token.Some? then multiset{token.value} else multiset{}
  }

  /** The player screen's token slot and the player it installs observers on. */
  class PlayerController<Token(==), Item> {
    const player: Player<Token, Item>
    var timeObserverToken: Option<Token>

    /** The player's periodic time observers are exactly the one the slot holds, if any. */
    ghost predicate Valid()
      reads this, player
    {
      player.timeObservers == Held(timeObserverToken)
    }

    constructor (player: Player<Token, Item>)
      requires player.timeObservers == multiset{}
      ensures Valid() && this.player == player && timeObserverToken == None
    {
      this.player := player;
      timeObserverToken := None;
    }

    /** Installs a periodic time observer, whose token is `issued`, unless one is already held. */
    method SetupPeriodicTimeObserver(issued: Token)
      requires Valid()
      modifies this`timeObserverToken, player`timeObservers
      ensures Valid() && timeObserverToken.Some?
      ensures old(timeObserverToken).Some? ==>
        timeObserverToken == old(timeObserverToken) && player.timeObservers == old(player.timeObservers)
      ensures old(timeObserverToken).None? ==>
        timeObserverToken == Some(issued) && player.timeObservers == old(player.timeObservers) + multiset{issued}
    {
      if timeObserverToken.Some? {
        return;
      }
      player.AddPeriodicTimeObserver(issued);
      timeObserverToken := Some(issued);
    }

    /** Removes the held periodic time observer from the player and empties the slot. */
    method CleanUpPeriodicTimeObserver()
      requires Valid()
      modifies this`timeObserverToken, player`timeObservers
      ensures Valid() && timeObserverToken == None
      ensures player.timeObservers == multiset{}
      ensures old(timeObserverToken).None? ==> player.timeObservers == old(player.timeObservers)
      ensures old(timeObserverToken).Some? ==>
        player.timeObservers == old(player.timeObservers) - multiset{old(timeObserverToken).value}
    {
      if timeObserverToken.Some? {
        player.RemoveTimeObserver(timeObserverToken.value);
        timeObserverToken := None;
      }
    }

    /**
     * Assigning `playerItem`: the player switches to the item; clearing it
     * removes the time observer, setting one installs it if none is held.
     */
    method SetPlayerItem(item: Option<Item>, issued: Token)
      requires Valid()
      modifies this`timeObserverToken, player
      ensures Valid() && player.currentItem == item
      ensures item.None? ==> timeObserverToken == None
      ensures item.Some? ==> timeObserverToken == (if old(timeObserverToken).Some? then old(timeObserverToken) else Some(issued))
    {
      player.ReplaceCurrentItem(item);
      if item.None? {
        CleanUpPeriodicTimeObserver();
      } else {
        SetupPeriodicTimeObserver(issued);
      }
    }
  }
}
