/** The closed universe of the player registry: the two player ids, the two
    sides of the split screen, the player record, and the fixed constants of
    the default layout and of the transfer spawn point. Coordinates are
    modelled as `real`: the source uses JavaScript numbers, and nothing here
    depends on their rounding. */
module Players {

  datatype Option<T> = None | Some(value: T)

  /** Which half of the canvas a player is on. */
  datatype Side = Left | Right

  /** The two player ids; no other id exists. */
  datatype PlayerId = Player1 | Player2

  /** Every player id is one of the two. */
  lemma TwoIds(id: PlayerId)
    ensures id == Player1 || id == Player2
  {
  }

  /** The authoritative record of one player. */
  datatype PlayerData = PlayerData(
    id: PlayerId,
    texture: string,
    tint: int,
    side: Side,
    x: real,
    y: real)

  /** The opposite side. */
  function Other(s: Side): (t: Side)
    ensures t != s
  {
    if s == Left then Right else Left
  }

  lemma OtherInvolutive(s: Side)
    ensures Other(Other(s)) == s
  {
  }

  /** The other player. */
  function Partner(id: PlayerId): (o: PlayerId)
    ensures o != id
  {
    if id == Player1 then Player2 else Player1
  }

  /** Cosmetics fixed per player at initialization. */
  function TextureOf(id: PlayerId): string
  {
    if id == Player1 then "star" else "logo"
  }

  function TintOf(id: PlayerId): int
  {
    if id == Player1 then 0xffdd55 else 0x55ddff
  }

  /** Horizontal distance of each default position from the left zone's centre. */
  const InitialSpread: real := 100.0

  /** Horizontal distance of a spawn point from the door edge of its zone. */
  const SpawnInset: real := 80.0

  /** Vertical distance of a spawn point from the zone's centre line. */
  const SpawnSpread: real := 60.0

  /** Default x of a player: a quarter of the canvas width (the centre of the
      left half) shifted left for player1 and right for player2. */
  function InitialX(id: PlayerId, width: real): real
  {
    var halfWidth := width / 2.0;
    if id == Player1 then halfWidth / 2.0 - InitialSpread else halfWidth / 2.0 + InitialSpread
  }

  /** The record a player gets from the first initialization. */
  function InitialRecord(id: PlayerId, width: real, height: real): (p: PlayerData)
    ensures p.id == id && p.side == Left
    ensures p.texture == TextureOf(id) && p.tint == TintOf(id)
    ensures p.y == height / 2.0
    ensures id == Player1 ==> p.x == width / 4.0 - 100.0
    ensures id == Player2 ==> p.x == width / 4.0 + 100.0
  {
    PlayerData(id, TextureOf(id), TintOf(id), Left, InitialX(id, width), height / 2.0)
  }

  /** The default positions straddle the centre of the left zone, 200 apart. */
  lemma InitialPositionsSymmetric(width: real, height: real)
    ensures InitialRecord(Player2, width, height).x - InitialRecord(Player1, width, height).x == 2.0 * InitialSpread
    ensures (InitialRecord(Player1, width, height).x + InitialRecord(Player2, width, height).x) / 2.0 == (width / 2.0) / 2.0
    ensures InitialRecord(Player1, width, height).y == InitialRecord(Player2, width, height).y
  {
  }

  /** The x coordinate of the spawn point when arriving on `toSide`: the left
      zone's door is at its right edge, the right zone's door at its left edge. */
  function SpawnX(toSide: Side, gameWidth: real): real
  {
    var halfWidth := gameWidth / 2.0;
    if toSide == Left then halfWidth - SpawnInset else SpawnInset
  }

  /** The y coordinate of the spawn point: player1 above the centre line,
      player2 below it. */
  function SpawnY(id: PlayerId, gameHeight: real): real
  {
    var centerY := gameHeight / 2.0;
    centerY + (if id == Player1 then -SpawnSpread else SpawnSpread)
  }

  /** The x coordinate of the door through which a player enters `side`, in
      that zone's own coordinates (each zone is half the canvas wide). */
  function DoorX(side: Side, gameWidth: real): real
  {
    if side == Left then gameWidth / 2.0 else 0.0
  }

  /** A spawn point lies exactly `SpawnInset` inside the destination door,
      on the zone's side of it. */
  lemma SpawnBesideDoor(toSide: Side, gameWidth: real)
    ensures toSide == Left ==> DoorX(toSide, gameWidth) - SpawnX(toSide, gameWidth) == SpawnInset
    ensures toSide == Right ==> SpawnX(toSide, gameWidth) - DoorX(toSide, gameWidth) == SpawnInset
  {
  }

  /** The two players never share a spawn y, whatever the height: player1
      spawns 120 above player2. */
  lemma SpawnYApart(gameHeight: real)
    ensures SpawnY(Player2, gameHeight) - SpawnY(Player1, gameHeight) == 2.0 * SpawnSpread
    ensures SpawnY(Player1, gameHeight) != SpawnY(Player2, gameHeight)
    ensures SpawnY(Player1, gameHeight) < gameHeight / 2.0 < SpawnY(Player2, gameHeight)
  {
  }

  /** On a canvas at least 160 wide and 120 high the spawn point lies within
      the destination zone (half the canvas wide, the full canvas high). */
  lemma SpawnInsideZone(id: PlayerId, toSide: Side, gameWidth: real, gameHeight: real)
    requires gameWidth >= 2.0 * SpawnInset && gameHeight >= 2.0 * SpawnSpread
    ensures 0.0 <= SpawnX(toSide, gameWidth) <= gameWidth / 2.0
    ensures 0.0 <= SpawnY(id, gameHeight) <= gameHeight
  {
  }
}
