// The values that client and server exchange, shared by every other module.

module GameData {

  datatype Option<+T> = None | Some(value: T)

  type Byte = b: int | 0 <= b < 0x100
  type Word = w: int | 0 <= w < 0x1_0000_0000
  type Int32 = i: int | -0x8000_0000 <= i < 0x8000_0000

  // NoMode is the client's IconGameMode::NONE (255); the server has no such mode.
  datatype GameMode = Cube | Ship | Ball | Ufo | Wave | Robot | Spider | NoMode

  // F is the representation of a float: an opaque 32-bit word on the wire and
  // in the server, a real number in the frame corrector.
  datatype Icon<F> = Icon(
    x: F, y: F, rot: F, mode: GameMode,
    hidden: bool, dashing: bool, upsideDown: bool, mini: bool, grounded: bool)

  datatype Player<F> = Player(
    timestamp: F, player1: Icon<F>, player2: Icon<F>, camX: F, camY: F,
    practice: bool, dead: bool, paused: bool)

  // All-zero record that a client has in its level until it sends its own data.
  const EmptyIcon: Icon<Word> := Icon(0, 0, 0, Cube, false, false, false, false, false)
  const EmptyPlayer: Player<Word> := Player(0, EmptyIcon, EmptyIcon, 0, 0, false, false, false)

  // A record as the server holds it: decoding maps an unknown mode to Cube.
  predicate HasModes(p: Player<Word>) {
    p.player1.mode != NoMode && p.player2.mode != NoMode
  }

  type ServerPlayer = p: Player<Word> | HasModes(p) witness EmptyPlayer

  datatype Account = Account(
    cube: Int32, ship: Int32, ball: Int32, ufo: Int32, wave: Int32, robot: Int32, spider: Int32,
    color1: Int32, color2: Int32, deathEffect: Int32, glow: bool, name: seq<Byte>)

  const EmptyAccount: Account := Account(0, 0, 0, 0, 0, 0, 0, 0, 0, 0, false, [])

  predicate IsAscii(s: seq<Byte>) {
    forall i | 0 <= i < |s| :: s[i] < 128
  }

  predicate ValidAccount(a: Account) {
    && |a.name| < 16 && IsAscii(a.name)
    && 0 <= a.cube <= 148
    && 1 <= a.ship <= 51
    && 0 <= a.ball <= 43
    && 1 <= a.ufo <= 35
    && 1 <= a.wave <= 35
    && 1 <= a.robot <= 26
    && 1 <= a.spider <= 17
    && 1 <= a.deathEffect <= 17
  }
}
