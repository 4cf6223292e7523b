/**
 * The player slideshow page with its rendering stripped away: the CSV price merge, the
 * navigation state (`index`, `jumpToPlayer`, `showJumpInput`), the team-logo fallback
 * chain, the stat colour bands and the window of pagination dots.
 */
module Slideshow {
  import opened Wrappers
  import opened JsString
  import ClubLogoMap

  /** JavaScript truthiness of an optional string: present and not empty. */
  predicate Truthy(s: Option<string>) {
    s.Some? && s.value != ""
  }

  /** The string an operand becomes where JavaScript expects one: `undefined` spells itself. */
  function JsText(s: Option<string>): string {
    if s.Some? then s.value else "undefined"
  }

  // ---------------------------------------------------------------------------
  // Players and the CSV price merge
  // ---------------------------------------------------------------------------

  /** A record of players.json, reduced to the fields the page logic reads or writes. */
  datatype Player = Player(
    name: Option<string>,
    club: Option<string>,
    listedPrice: Option<string>,  // `base_price`
    teamImage: Option<string>,    // `images.team`
    basePrice: Option<string>)    // `basePrice`, written by the merge

  /** A row of players_info.csv; `name` is the cell after `toString()`. */
  datatype CsvRow = CsvRow(name: Option<string>, basePrice: Option<string>)

  /** `s?.trim().toLowerCase()`: a missing value stays missing. */
  function MatchKey(s: Option<string>): Option<string> {
    if s.Some? then Some(ToLowerCase(Trim(s.value))) else None
  }

  /** The `find` test: the names are equal, or either includes the other. */
  predicate RowMatches(csvName: Option<string>, playerName: Option<string>) {
    csvName == playerName
    || (csvName.Some? && Contains(csvName.value, JsText(playerName)))
    || (playerName.Some? && Contains(playerName.value, JsText(csvName)))
  }

  predicate MatchesRow(row: CsvRow, playerName: Option<string>) {
    RowMatches(MatchKey(row.name), playerName)
  }

  /** The index of the first row at or after `from` that passes `test`; `None` if there is none. */
  function FirstRowWhere(rows: seq<CsvRow>, test: CsvRow -> bool, from: nat): (r: Option<nat>)
    ensures r.Some? ==> from <= r.value < |rows| && test(rows[r.value])
                        && forall j | from <= j < r.value :: !test(rows[j])
    ensures r.None? ==> forall j | from <= j < |rows| :: !test(rows[j])
    decreases |rows| - from
  {
    if from >= |rows| then None
    else if test(rows[from]) then Some(from)
    else FirstRowWhere(rows, test, from + 1)
  }

  /** `parsedCSV.find(...)`: the first row whose name matches the player's. */
  function FindCsvMatch(rows: seq<CsvRow>, playerName: Option<string>): (r: Option<CsvRow>)
    ensures r.None? <==> forall i | 0 <= i < |rows| :: !MatchesRow(rows[i], playerName)
    ensures r.Some? ==> exists i | 0 <= i < |rows| :: rows[i] == r.value && MatchesRow(rows[i], playerName)
                          && forall j | 0 <= j < i :: !MatchesRow(rows[j], playerName)
  {
    match FirstRowWhere(rows, row => MatchesRow(row, playerName), 0)
    case Some(i) => Some(rows[i])
    case None => None
  }

  /** The price shown for a player: its own `base_price` when truthy, else "N/A". */
  function ListedPriceOrNA(player: Player): string {
    if Truthy(player.listedPrice) then player.listedPrice.value else "N/A"
  }

  /** The `map` callback: looks the player up in the CSV, then sets `basePrice` from the player alone. */
  function MergePlayer(player: Player, rows: seq<CsvRow>): Player {
    var csvMatch := FindCsvMatch(rows, MatchKey(player.name));
    player.(basePrice := Some(ListedPriceOrNA(player)))
  }

  /** `playersArray.map(...)` with the CSV rows. */
  function MergePrices(players: seq<Player>, rows: seq<CsvRow>): seq<Player> {
    seq(|players|, i requires 0 <= i < |players| => MergePlayer(players[i], rows))
  }

  /** What the load stores: the merged list, or the list as fetched when the CSV is missing or fails. */
  function LoadPlayers(fetched: seq<Player>, csv: Option<seq<CsvRow>>): seq<Player> {
    if csv.Some? then MergePrices(fetched, csv.value) else fetched
  }

  /**
   * The merge keeps the length and order of the list, and each record is its player
   * with `basePrice` set to the player's own price or "N/A".
   */
  lemma MergeKeepsPlayers(players: seq<Player>, rows: seq<CsvRow>)
    ensures |MergePrices(players, rows)| == |players|
    ensures forall i | 0 <= i < |players| ::
              MergePrices(players, rows)[i].(basePrice := players[i].basePrice) == players[i]
              && MergePrices(players, rows)[i].basePrice == Some(ListedPriceOrNA(players[i]))
  {
  }

  /** Whatever the CSV holds, the merged list is the same. */
  lemma MergeIgnoresCsv(players: seq<Player>, a: seq<CsvRow>, b: seq<CsvRow>)
    ensures MergePrices(players, a) == MergePrices(players, b)
  {
  }

  /** Without a CSV the stored list is the fetched one, with no `basePrice` added. */
  lemma LoadWithoutCsvKeepsPlayers(fetched: seq<Player>)
    ensures LoadPlayers(fetched, None) == fetched
  {
  }

  // ---------------------------------------------------------------------------
  // Navigation
  // ---------------------------------------------------------------------------

  /** A non-negative number below `n` is its own remainder. */
  lemma ModOfSmall(x: int, n: int)
    requires 0 <= x < n
    ensures x % n == x
  {
  }

  /** `n` leaves no remainder by itself. */
  lemma ModOfSelf(n: int)
    requires 0 < n
    ensures n % n == 0
  {
  }

  /** Adding `n` to a number in `[0, n)` leaves its remainder unchanged. */
  lemma ModOfOneMore(x: int, n: int)
    requires 0 <= x < n
    ensures (x + n) % n == x
  {
  }

  /** `(p + 1) % players.length`; both operands are non-negative, so `%` is the same as JavaScript's. */
  function NextIndex(p: int, n: int): (r: int)
    requires 0 <= p < n
    ensures 0 <= r < n
    ensures r == if p == n - 1 then 0 else p + 1
  {
    var r := (p + 1) % n;
    if p + 1 < n then ModOfSmall(p + 1, n); r else ModOfSelf(n); r
  }

  /** `(p - 1 + players.length) % players.length`. */
  function PrevIndex(p: int, n: int): (r: int)
    requires 0 <= p < n
    ensures 0 <= r < n
    ensures r == if p == 0 then n - 1 else p - 1
  {
    var r := (p - 1 + n) % n;
    if p == 0 then ModOfSmall(n - 1, n); r else ModOfOneMore(p - 1, n); r
  }

  lemma PrevUndoesNext(p: int, n: int)
    requires 0 <= p < n
    ensures PrevIndex(NextIndex(p, n), n) == p
    ensures NextIndex(PrevIndex(p, n), n) == p
  {
  }

  /** The index after `k` presses of "next". */
  function Advance(p: int, k: nat, n: int): (r: int)
    requires 0 <= p < n
    ensures 0 <= r < n
  {
    if k == 0 then p else NextIndex(Advance(p, k - 1, n), n)
  }

  /** Up to `n` presses of "next" move `k` places, wrapping past the last player once. */
  lemma {:induction false} AdvanceWraps(p: int, k: nat, n: int)
    requires 0 <= p < n && k <= n
    ensures Advance(p, k, n) == if p + k < n then p + k else p + k - n
  {
    if k > 0 {
      AdvanceWraps(p, k - 1, n);
    }
  }

  /** `n` presses of "next" come back to the same player. */
  lemma FullTurnReturns(p: int, n: int)
    requires 0 <= p < n
    ensures Advance(p, n as nat, n) == p
  {
    AdvanceWraps(p, n as nat, n);
  }

  /**
   * The index a jump goes to: `parseInt(jumpToPlayer)` when it is a number in `[1, n]`,
   * less one; `None` (nothing happens) for anything else, NaN included.
   */
  function JumpTarget(text: string, n: int): (r: Option<int>)
    ensures r.Some? ==> 0 <= r.value < n
  {
    var k := ParseInt(text, Unspecified);
    if k.Some? && 1 <= k.value <= n then Some(k.value - 1) else None
  }

  /** Typing the player number `k` and pressing Go selects player `k`, if there is one. */
  lemma JumpToTypedNumber(k: nat, n: int)
    ensures JumpTarget(NatString(k), n) == if 1 <= k <= n then Some(k - 1) else None
  {
    ParseIntOfNatString(k, Unspecified);
  }

  /** Typing a negative number selects nothing. */
  lemma JumpToNegativeNumber(m: nat, n: int)
    ensures JumpTarget("-" + NatString(m), n) == None
  {
    ParseIntOfMinus(m, Unspecified);
  }

  // ---------------------------------------------------------------------------
  // Pagination dots
  // ---------------------------------------------------------------------------

  function Max(a: int, b: int): int { if a < b then b else a }
  function Min(a: int, b: int): int { if a < b then a else b }

  /**
   * The `actualIndex` of each dot, left to right: the slice of the players from
   * `max(0, index - 5)` up to `min(n, index + 6)`, each offset by the slice's start.
   */
  function DotIndices(index: int, n: int): (dots: seq<int>)
    requires 0 <= index < n
    ensures 1 <= |dots| <= 11
    ensures forall k | 0 <= k < |dots| :: 0 <= dots[k] < n
    ensures forall k, l | 0 <= k < l < |dots| :: dots[k] < dots[l]
    ensures forall k | 0 <= k < |dots| :: dots[k] == Max(0, index - 5) + k
    ensures forall j | 0 <= j < n :: j in dots <==> index - 5 <= j <= index + 5
  {
    var lo := Max(0, index - 5);
    var hi := Min(n, index + 6);
    var dots := seq(hi - lo, i requires 0 <= i < hi - lo => lo + i);
    forall j | lo <= j < hi
      ensures j in dots
    {
      assert dots[j - lo] == j;
    }
    dots
  }

  /** Exactly one dot is the current player's. */
  lemma ExactlyOneCurrentDot(index: int, n: int)
    requires 0 <= index < n
    ensures exists k | 0 <= k < |DotIndices(index, n)| :: DotIndices(index, n)[k] == index
              && forall l | 0 <= l < |DotIndices(index, n)| && DotIndices(index, n)[l] == index :: l == k
  {
    var dots := DotIndices(index, n);
    var k := index - Max(0, index - 5);
    assert dots[k] == index;
  }

  // ---------------------------------------------------------------------------
  // Team logo and stat colours
  // ---------------------------------------------------------------------------

  /** The first truthy candidate of a fallback chain, or `None`. */
  function FirstTruthy(candidates: seq<Option<string>>): (r: Option<string>)
    ensures r.Some? ==> Truthy(r)
    ensures r.None? <==> forall i | 0 <= i < |candidates| :: !Truthy(candidates[i])
    ensures r.Some? ==> exists i | 0 <= i < |candidates| :: candidates[i] == r
                          && forall j | 0 <= j < i :: !Truthy(candidates[j])
  {
    if candidates == [] then None
    else if Truthy(candidates[0]) then candidates[0]
    else
      var r := FirstTruthy(candidates[1..]);
      assert forall i | 1 <= i < |candidates| :: candidates[i] == candidates[1..][i - 1];
      r
  }

  /**
   * `getTeamLogo(clubName, teamImageUrl)` with the crest table `t`, which on the page is
   * `ClubLogoMap.ClubLogoTable`.
   */
  function TeamLogo(t: ClubLogoMap.Table, clubName: Option<string>, teamImageUrl: Option<string>): Option<string> {
    var clubLogo := ClubLogoMap.ClubLogo(t, clubName);
    if clubLogo.Some? then Some(clubLogo.value)   // a crest URL is never empty
    else if Truthy(teamImageUrl) then teamImageUrl
    else None
  }

  /** The team logo is the first truthy link of the chain club crest, team image. */
  lemma TeamLogoIsFallbackChain(t: ClubLogoMap.Table, clubName: Option<string>, teamImageUrl: Option<string>)
    ensures TeamLogo(t, clubName, teamImageUrl)
            == FirstTruthy([ClubLogoMap.ClubLogo(t, clubName), teamImageUrl])
  {
  }

  /** No logo at all exactly when no crest key is related to the club name and there is no team image. */
  lemma TeamLogoNullIff(t: ClubLogoMap.Table, clubName: Option<string>, teamImageUrl: Option<string>)
    ensures TeamLogo(t, clubName, teamImageUrl).None? <==>
              (clubName.None? || clubName.value == ""
               || forall i | 0 <= i < |t| ::
                    !ClubLogoMap.Related(ClubLogoMap.NormalizeKey(clubName), ClubLogoMap.NormalizeKey(Some(t[i].0))))
              && !Truthy(teamImageUrl)
  {
    ClubLogoMap.NullIffNoRelatedKey(t, clubName);
  }

  /** The colour bands of a stat, highest first. */
  datatype Band = Green | Blue | Yellow | Orange | Red

  /** The band of a parsed stat, tested top-down; NaN (`None`) fails every test. */
  function BandOf(n: Option<int>): (b: Band)
    ensures b == Green <==> n.Some? && 90 <= n.value
    ensures b == Blue <==> n.Some? && 80 <= n.value < 90
    ensures b == Yellow <==> n.Some? && 70 <= n.value < 80
    ensures b == Orange <==> n.Some? && 60 <= n.value < 70
    ensures b == Red <==> n.None? || n.value < 60
  {
    if n.Some? && n.value >= 90 then Green
    else if n.Some? && n.value >= 80 then Blue
    else if n.Some? && n.value >= 70 then Yellow
    else if n.Some? && n.value >= 60 then Orange
    else Red
  }

  function Rank(b: Band): nat {
    match b
    case Red => 0
    case Orange => 1
    case Yellow => 2
    case Blue => 3
    case Green => 4
  }

  /** A higher stat never gets a lower band. */
  lemma BandIsMonotone(m: int, n: int)
    requires m <= n
    ensures Rank(BandOf(Some(m))) <= Rank(BandOf(Some(n)))
  {
  }

  /** The gradient stops of each band. */
  function BandColors(b: Band): (string, string) {
    match b
    case Green => ("#34D399", "#059669")
    case Blue => ("#60A5FA", "#06B6D4")
    case Yellow => ("#FCD34D", "#F97316")
    case Orange => ("#FB923C", "#F43F5E")
    case Red => ("#F87171", "#EF4444")
  }

  /** Each band has its own gradient: no two bands share their colours. */
  lemma BandColorsDistinct(a: Band, b: Band)
    ensures BandColors(a) == BandColors(b) <==> a == b
  {
  }

  /** `getStatColors(val)`: `parseInt(val || "0", 10)`, then the band's colours. */
  function StatColors(val: Option<string>): (string, string) {
    BandColors(BandOf(ParseInt(if Truthy(val) then val.value else "0", Decimal)))
  }

  /** A stat held as the number `k` gets the colours of `k`'s band; a missing one is red. */
  lemma StatColorsOfNumber(k: nat)
    ensures StatColors(Some(NatString(k))) == BandColors(BandOf(Some(k)))
    ensures StatColors(None) == BandColors(Red)
  {
    var text := NatString(k);
    ParseIntOfNatString(k, Decimal);
    assert StatColors(Some(text)) == BandColors(BandOf(ParseInt(text, Decimal)));
    assert NatString(0) == "0";
    ParseIntOfNatString(0, Decimal);
    assert ParseInt("0", Decimal) == Some(0);
  }

  // ---------------------------------------------------------------------------
  // The page state
  // ---------------------------------------------------------------------------

  /** The `useState` fields of the page that the handlers update. */
  class SlideshowState {
    var players: seq<Player>
    var index: int
    var jumpToPlayer: string
    var showJumpInput: bool

    /** `index` selects a player once there are any; before that it is 0. */
    ghost predicate Valid()
      reads this
    {
      0 <= index && (index < |players| || index == 0)
    }

    constructor ()
      ensures Valid()
      ensures players == [] && index == 0 && jumpToPlayer == "" && !showJumpInput
    {
      players := [];
      index := 0;
      jumpToPlayer := "";
      showJumpInput := false;
    }

    /** `players[index] || players[0]`. */
    function CurrentPlayer(): (p: Player)
      reads this
      requires players != []
      ensures p in players
      ensures 0 <= index < |players| ==> p == players[index]
    {
      if 0 <= index < |players| then players[index] else players[0]
    }

    /**
     * The effect of loading: `fetched` is the list read from players.json (`None` when that
     * fetch fails), `csv` the parsed rows (`None` when the CSV is missing or fails).
     */
    method Load(fetched: Option<seq<Player>>, csv: Option<seq<CsvRow>>)
      requires Valid()
      modifies this`players, this`index
      ensures Valid()
      ensures fetched.Some? ==> players == LoadPlayers(fetched.value, csv) && index == 0
      ensures fetched.None? ==> players == old(players) && index == old(index)
    {
      if fetched.Some? {
        players := LoadPlayers(fetched.value, csv);
        index := 0;
      }
    }

    /** `next`, once its 140 ms delay has passed. */
    method Next()
      requires Valid() && players != []
      modifies this`index
      ensures Valid() && index == NextIndex(old(index), |players|)
    {
      index := (index + 1) % |players|;
    }

    /** `prev`, once its 140 ms delay has passed. */
    method Prev()
      requires Valid() && players != []
      modifies this`index
      ensures Valid() && index == PrevIndex(old(index), |players|)
    {
      index := (index - 1 + |players|) % |players|;
    }

    /** The search button: shows or hides the jump input. */
    method ToggleJumpInput()
      modifies this`showJumpInput
      ensures showJumpInput == !old(showJumpInput)
    {
      showJumpInput := !showJumpInput;
    }

    /** The jump input's `onChange`. */
    method EditJumpInput(text: string)
      modifies this`jumpToPlayer
      ensures jumpToPlayer == text
    {
      jumpToPlayer := text;
    }

    /**
     * `jumpToPlayerNumber`, once its delay has passed: a number in `[1, n]` selects that
     * player, clears the input and hides it; anything else changes nothing.
     */
    method JumpToPlayerNumber()
      requires Valid()
      modifies this`index, this`jumpToPlayer, this`showJumpInput
      ensures Valid()
      ensures var target := JumpTarget(old(jumpToPlayer), |players|);
              if target.Some?
              then index == target.value && jumpToPlayer == "" && !showJumpInput
              else index == old(index) && jumpToPlayer == old(jumpToPlayer)
                   && showJumpInput == old(showJumpInput)
    {
      var playerNum := ParseInt(jumpToPlayer, Unspecified);
      if playerNum.Some? && playerNum.value >= 1 && playerNum.value <= |players| {
        index := playerNum.value - 1;
        jumpToPlayer := "";
        showJumpInput := false;
      }
    }

    /** A pagination dot's `onClick`: selects the dot's player. */
    method SelectDot(actualIndex: int)
      requires Valid() && players != [] && actualIndex in DotIndices(index, |players|)
      modifies this`index
      ensures Valid() && index == actualIndex
    {
      index := actualIndex;
    }
  }
}
