/** Values shared by the whole project. */
module Common {
  datatype Option<+T> = None | Some(value: T)
}

/** One backend server and its mutable state (internal/backend). */
module Backends {

  class Backend {
    const url: string
    var weight: int
    var alive: bool
    var activeConns: int

    /** A backend starts dead and idle; its creator marks it alive. */
    constructor (url: string, weight: int)
      ensures this.url == url && this.weight == weight && !alive && activeConns == 0
    {
      this.url, this.weight := url, weight;
      alive, activeConns := false, 0;
    }

    method SetAlive(alive: bool)
      modifies this`alive
      ensures this.alive == alive
    {
      this.alive := alive;
    }

    method SetWeight(weight: int)
      modifies this`weight
      ensures this.weight == weight
    {
      this.weight := weight;
    }
  }
}
