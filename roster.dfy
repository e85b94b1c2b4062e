/**
 * Queries over a lobby's seats: session recovery looks a seat up by display
 * name, and leaving before the game filters seats by connection.
 */
module Roster {
  import opened Model

  /** The first seat whose display name is `name`, if any. */
  function FindByName(ps: seq<Player>, name: string): (r: Option<nat>)
    ensures r.Some? ==> r.value < |ps| && ps[r.value].name == name
    ensures r.Some? ==> forall j :: 0 <= j < r.value ==> ps[j].name != name
    ensures r.None? <==> forall j :: 0 <= j < |ps| ==> ps[j].name != name
  {
    if ps == [] then None
    else if ps[0].name == name then Some(0)
    else match FindByName(ps[1..], name)
      case None => None
      case Some(k) => Some(k + 1)
  }

  /** The seats not bound to connection `socketId`, in their original order. */
  function WithoutSocket(ps: seq<Player>, socketId: string): (r: seq<Player>)
    ensures |r| <= |ps|
    ensures forall p :: p in r <==> p in ps && p.socketId != Some(socketId)
    ensures (forall j :: 0 <= j < |ps| ==> ps[j].socketId != Some(socketId)) ==> r == ps
  {
    if ps == [] then []
    else if ps[0].socketId == Some(socketId) then WithoutSocket(ps[1..], socketId)
    else [ps[0]] + WithoutSocket(ps[1..], socketId)
  }

  /** Filtering works segment by segment, so the kept seats keep their relative order. */
  lemma {:induction false} WithoutSocketAppend(a: seq<Player>, b: seq<Player>, socketId: string)
    ensures WithoutSocket(a + b, socketId) == WithoutSocket(a, socketId) + WithoutSocket(b, socketId)
  {
    if a != [] {
      assert (a + b)[1..] == a[1..] + b;
      WithoutSocketAppend(a[1..], b, socketId);
    } else {
      assert a + b == b;
    }
  }

  /** A seat bound to no connection (a bot, unless a joiner took it over by name) survives leaving. */
  lemma UnboundSeatsStay(ps: seq<Player>, socketId: string, i: nat)
    requires i < |ps| && ps[i].socketId.None?
    ensures ps[i] in WithoutSocket(ps, socketId)
  {
  }

  /**
   * Recovery by name matches any seat, bots included: the seat found for
   * `name` and rebound to `socketId` is removed when that connection leaves.
   */
  lemma RecoveredSeatLeaves(ps: seq<Player>, name: string, socketId: string, i: nat)
    requires FindByName(ps, name) == Some(i)
    ensures var qs := ps[i := ps[i].(socketId := Some(socketId))];
            i < |qs| && qs[i].name == name && qs[i].isBot == ps[i].isBot && qs[i] !in WithoutSocket(qs, socketId)
  {
  }
}
