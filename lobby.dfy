/** The lobby of the first revision: the list of rooms a player can join, looked up by
    name. A room here is only its name; a lookup answers with the room's position. */
module Lobbies {
  import opened Common
  import opened Lists

  datatype LobbyRoom = LobbyRoom(name: string)

  function Named(name: string): LobbyRoom -> bool {
    (r: LobbyRoom) => r.name == name
  }

  function NotNamed(name: string): LobbyRoom -> bool {
    (r: LobbyRoom) => r.name != name
  }

  // ---- `removeRoomWithName` as written ----

  /** The loop of `removeRoomWithName` as written: `i` runs over the ORIGINAL count `n`,
      a matching room is removed at `i`, and the index moves on regardless. `None` is the
      run that indexes past the end of the shortened list. */
  function RemoveLoopAsWritten(rooms: seq<LobbyRoom>, name: string, i: nat, n: nat): (r: Option<seq<LobbyRoom>>)
    ensures r.Some? ==> forall x :: x in r.value ==> x in rooms
    decreases n - i
  {
    if i >= n then Some(rooms)
    else if i >= |rooms| then None
    else if rooms[i].name == name then RemoveLoopAsWritten(rooms[..i] + rooms[i + 1..], name, i + 1, n)
    else RemoveLoopAsWritten(rooms, name, i + 1, n)
  }

  function RemoveAsWritten(rooms: seq<LobbyRoom>, name: string): (r: Option<seq<LobbyRoom>>)
    ensures r.Some? ==> forall x :: x in r.value ==> x in rooms
  {
    RemoveLoopAsWritten(rooms, name, 0, |rooms|)
  }

  /** Once a room has been removed before the last iteration, the run goes out of range. */
  lemma {:induction false} RemovedEarlyCrashes(rooms: seq<LobbyRoom>, name: string, i: nat, n: nat)
    requires i < n && |rooms| < n
    ensures RemoveLoopAsWritten(rooms, name, i, n) == None
    decreases n - i
  {
    if i < |rooms| {
      if rooms[i].name == name {
        RemovedEarlyCrashes(rooms[..i] + rooms[i + 1..], name, i + 1, n);
      } else {
        RemovedEarlyCrashes(rooms, name, i + 1, n);
      }
    }
  }

  lemma {:induction false} RemoveLoopOutcome(rooms: seq<LobbyRoom>, name: string, i: nat)
    requires i <= |rooms|
    ensures RemoveLoopAsWritten(rooms, name, i, |rooms|) == None <==>
      exists j :: i <= j < |rooms| - 1 && rooms[j].name == name
    ensures RemoveLoopAsWritten(rooms, name, i, |rooms|).Some? ==>
      RemoveLoopAsWritten(rooms, name, i, |rooms|).value ==
        if i < |rooms| && rooms[|rooms| - 1].name == name then rooms[..|rooms| - 1] else rooms
    decreases |rooms| - i
  {
    var n := |rooms|;
    if i < n {
      if rooms[i].name == name {
        if i < n - 1 {
          RemovedEarlyCrashes(rooms[..i] + rooms[i + 1..], name, i + 1, n);
        } else {
          assert rooms[..i] + rooms[i + 1..] == rooms[..n - 1];
        }
      } else {
        RemoveLoopOutcome(rooms, name, i + 1);
      }
    }
  }

  /** The loop as written fails exactly when a room with the name sits anywhere but last;
      otherwise it removes the last room when that one has the name. */
  lemma {:induction false} RemoveAsWrittenOutcome(rooms: seq<LobbyRoom>, name: string)
    ensures RemoveAsWritten(rooms, name) == None <==>
      exists j :: 0 <= j < |rooms| - 1 && rooms[j].name == name
    ensures RemoveAsWritten(rooms, name).Some? ==>
      RemoveAsWritten(rooms, name).value == Filter(rooms, NotNamed(name))
  {
    RemoveLoopOutcome(rooms, name, 0);
    if RemoveAsWritten(rooms, name).Some? {
      OnlyLastMatches(rooms, name);
    }
  }

  /** The filter of a list in which only the last entry can have the name. */
  lemma {:induction false} OnlyLastMatches(rooms: seq<LobbyRoom>, name: string)
    requires forall j :: 0 <= j < |rooms| - 1 ==> rooms[j].name != name
    ensures Filter(rooms, NotNamed(name)) ==
      if |rooms| > 0 && rooms[|rooms| - 1].name == name then rooms[..|rooms| - 1] else rooms
  {
    var n := |rooms|;
    if n > 0 {
      var init := rooms[..n - 1];
      FilterAllKept(init, NotNamed(name));
      assert rooms == init + [rooms[n - 1]];
      FilterConcat(init, [rooms[n - 1]], NotNamed(name));
    }
  }

  /** Two rooms, the first one named "a": removing "a" removes it and then reads the second
      position of a list that now has one room. */
  lemma RemoveAsWrittenCounterexample()
    ensures RemoveAsWritten([LobbyRoom("a"), LobbyRoom("b")], "a") == None
  {
    RemoveAsWrittenOutcome([LobbyRoom("a"), LobbyRoom("b")], "a");
    assert [LobbyRoom("a"), LobbyRoom("b")][0].name == "a";
  }

  // ---- The lobby ----

  class Lobby {
    var rooms: seq<LobbyRoom>

    constructor ()
      ensures rooms == []
    {
      rooms := [];
    }

    /** `addRoomWithName`: appends a new room; the earlier ones are left as they were. */
    method AddRoomWithName(name: string)
      modifies this
      ensures rooms == old(rooms) + [LobbyRoom(name)]
      ensures |rooms| == |old(rooms)| + 1 && rooms[..|old(rooms)|] == old(rooms)
    {
      rooms := rooms + [LobbyRoom(name)];
      assert rooms[..|old(rooms)|] == old(rooms);
    }

    /** `getNumberOfRooms`. */
    function GetNumberOfRooms(): nat
      reads this
    {
      |rooms|
    }

    /** `getRoomWithName`: the position of the first room with the name, if any. */
    method GetRoomWithName(name: string) returns (r: Option<nat>)
      ensures r.Some? ==> (r.value < |rooms| && rooms[r.value].name == name &&
        forall j :: 0 <= j < r.value ==> rooms[j].name != name)
      ensures r.None? ==> forall j :: 0 <= j < |rooms| ==> rooms[j].name != name
    {
      for i := 0 to |rooms|
        invariant forall j :: 0 <= j < i ==> rooms[j].name != name
      {
        if rooms[i].name == name {
          return Some(i);
        }
      }
      return None;
    }

    /** `hasRoomWithName`. */
    method HasRoomWithName(name: string) returns (b: bool)
      ensures b <==> exists j :: 0 <= j < |rooms| && rooms[j].name == name
    {
      for i := 0 to |rooms|
        invariant forall j :: 0 <= j < i ==> rooms[j].name != name
      {
        if rooms[i].name == name {
          return true;
        }
      }
      return false;
    }

    /** `removeRoomWithName` as evidently intended: every room with the name goes, the
        others keep their order. The index advances only past a kept room and the bound
        is the current count. */
    method RemoveRoomWithName(name: string)
      modifies this
      ensures rooms == Filter(old(rooms), NotNamed(name))
    {
      var i := 0;
      while i < |rooms|
        invariant i <= |rooms|
        invariant rooms[..i] + Filter(rooms[i..], NotNamed(name)) == Filter(old(rooms), NotNamed(name))
        decreases |rooms| - i, |rooms|
      {
        ghost var before := rooms;
        FilterStep(before[i..], NotNamed(name));
        assert before[i..][0] == before[i] && before[i..][1..] == before[i + 1..];
        if rooms[i].name == name {
          rooms := rooms[..i] + rooms[i + 1..];
          assert rooms[..i] == before[..i] && rooms[i..] == before[i + 1..];
        } else {
          assert before[..i + 1] == before[..i] + [before[i]];
          i := i + 1;
        }
      }
      assert rooms[i..] == [];
      assert rooms[..i] == rooms;
    }
  }

  /** `hasRoomWithName` answers true exactly when `getRoomWithName` finds a room. */
  method HasIffGet(lobby: Lobby, name: string) returns (has: bool, got: Option<nat>)
    ensures has <==> got.Some?
  {
    has := lobby.HasRoomWithName(name);
    got := lobby.GetRoomWithName(name);
  }

  /** The corrected removal lowers `getNumberOfRooms` by the number of rooms with the name,
      so by at least one exactly when `hasRoomWithName` holds. */
  lemma {:induction false} RemovalCount(rooms: seq<LobbyRoom>, name: string)
    ensures |Filter(rooms, NotNamed(name))| + |Filter(rooms, Named(name))| == |rooms|
    ensures |Filter(rooms, NotNamed(name))| < |rooms| <==> exists j :: 0 <= j < |rooms| && rooms[j].name == name
  {
    if rooms != [] {
      RemovalCount(rooms[1..], name);
      assert forall j :: 0 <= j < |rooms| - 1 ==> rooms[1..][j] == rooms[j + 1];
      if rooms[0].name != name && exists j :: 0 <= j < |rooms| && rooms[j].name == name {
        var j :| 0 <= j < |rooms| && rooms[j].name == name;
        assert rooms[1..][j - 1].name == name;
      }
    }
  }

  /** On a lobby: after the corrected removal the count is the old count less the number of
      rooms that had the name. */
  method CountAfterRemoval(lobby: Lobby, name: string) returns (before: nat, after: nat)
    modifies lobby
    ensures after == before - |Filter(old(lobby.rooms), Named(name))|
    ensures after < before <==> exists j :: 0 <= j < |old(lobby.rooms)| && old(lobby.rooms)[j].name == name
  {
    before := lobby.GetNumberOfRooms();
    RemovalCount(lobby.rooms, name);
    lobby.RemoveRoomWithName(name);
    after := lobby.GetNumberOfRooms();
  }

  /** Wherever the loop as written does not fail, it agrees with the corrected removal. */
  lemma AsWrittenAgreesWhenItSucceeds(rooms: seq<LobbyRoom>, name: string)
    requires RemoveAsWritten(rooms, name).Some?
    ensures RemoveAsWritten(rooms, name).value == Filter(rooms, NotNamed(name))
  {
    RemoveAsWrittenOutcome(rooms, name);
  }

  /** After the corrected removal no room has the name, and the other rooms remain. */
  lemma RemovalLeavesNoMatch(rooms: seq<LobbyRoom>, name: string)
    ensures forall r :: r in Filter(rooms, NotNamed(name)) <==> r in rooms && r.name != name
  {
    forall r ensures r in Filter(rooms, NotNamed(name)) <==> r in rooms && r.name != name {
      FilterMember(rooms, NotNamed(name), r);
    }
  }
}
