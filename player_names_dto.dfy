/** PlayerNamesDto.java: the players' names, in player order, for display. */
module PlayerNames {
  import opened LegacyPlayers

  datatype PlayerNamesDto = PlayerNamesDto(names: seq<string>)
  {
    /** getNames: the list stored at construction. */
    function GetNames(): seq<string> { names }
  }

  /** `players.stream().map(Participant::getName)`. */
  function NamesOf(players: seq<Player>): (r: seq<string>)
    ensures |r| == |players|
    ensures forall i :: 0 <= i < |players| ==> r[i] == players[i].name
  {
    if players == [] then [] else [players[0].name] + NamesOf(players[1..])
  }

  /** PlayerNamesDto.from. */
  function From(players: seq<Player>): (d: PlayerNamesDto)
    ensures |d.GetNames()| == |players|
    ensures forall i :: 0 <= i < |players| ==> d.GetNames()[i] == players[i].name
  {
    PlayerNamesDto(NamesOf(players))
  }

  /** No players, no names; and a DTO's names are exactly those it was built with. */
  lemma EmptyAndStored(names: seq<string>)
    ensures From([]).GetNames() == []
    ensures PlayerNamesDto(names).GetNames() == names
  {
  }
}
