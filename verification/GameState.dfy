/** The in-game state the program keeps: what the shards report and what the status page shows. */
module GameState {
  type UInt32 = n: int | 0 <= n < 0x1_0000_0000
  type Int32 = n: int | -0x8000_0000 <= n < 0x8000_0000

  datatype Env = Env(
    players: UInt32, cycles: UInt32, season: UInt32, phase: UInt32, remDays: UInt32, temp: Int32,
    isRaining: bool, isSnowing: bool, moonPhase: UInt32, nightmare: UInt32, alterAwake: bool)

  datatype Timers = Timers(
    deerclops: UInt32, bearger: UInt32, moose: UInt32, dragonfly: UInt32, beequeen: UInt32, klaus: UInt32,
    toadstool: UInt32, fuelweaver: UInt32, malbatross: UInt32, lordfruitfly: UInt32, antlion: UInt32)

  datatype View = View(env: Env, timers: Timers)

  class State {
    var players: UInt32
    var cycles: UInt32
    var season: UInt32
    var phase: UInt32
    var remDays: UInt32
    var temp: Int32
    var isRaining: bool
    var isSnowing: bool
    var moonPhase: UInt32
    var nightmare: UInt32
    var alterAwake: bool

    var deerclops: UInt32
    var bearger: UInt32
    var moose: UInt32
    var dragonfly: UInt32
    var beequeen: UInt32
    var klaus: UInt32
    var toadstool: UInt32
    var fuelweaver: UInt32
    var malbatross: UInt32
    var lordfruitfly: UInt32
    var antlion: UInt32

    function Snapshot(): View
      reads this
    {
      View(
        Env(players, cycles, season, phase, remDays, temp, isRaining, isSnowing, moonPhase, nightmare, alterAwake),
        Timers(deerclops, bearger, moose, dragonfly, beequeen, klaus, toadstool, fuelweaver, malbatross,
               lordfruitfly, antlion))
    }
  }
}
