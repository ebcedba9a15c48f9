/** Events, rows, and the store the writers share: a log of position-groups and a folded position. */
module Store {
  import opened Base
  import opened Positions

  type Event(==, !new)

  /** A cell: integers are told apart (keys are stored as integers), every other kind is opaque. */
  type Payload(==, !new)
  datatype Value = Integer(number: int) | Other(payload: Payload)
  datatype Row = Row(cells: seq<Value>)

  /** One position-group: everything stored in one transaction. */
  datatype Group = Group(position: Position, rows: seq<Row>)

  /** `attempts` counts the writes tried; it numbers them for `Env.fails`. */
  datatype StoreState = StoreState(log: seq<Group>, position: Option<Position>, attempts: nat)

  /** The surroundings: the policy of the position type, the confirmation depth, which events encode, and which
      writes fail. */
  datatype Env = Env(policy: Reobservation, depth: nat, encode: Event -> Option<Row>, fails: nat -> bool)

  /** An attempted write: all of it or nothing. */
  function Write(fails: nat -> bool, s: StoreState, g: Group): (StoreState, bool) {
    var tried := s.(attempts := s.attempts + 1);
    if fails(s.attempts) then (tried, false)
    else (tried.(log := s.log + [g], position := Some(Advance(s.position, g.position))), true)
  }

  /** The store object both writers hold. */
  class SharedStore {
    const fails: nat -> bool
    var log: seq<Group>
    var position: Option<Position>
    var attempts: nat

    constructor (fails: nat -> bool)
      ensures this.fails == fails && View() == StoreState([], None, 0)
    {
      this.fails := fails;
      log, position, attempts := [], None, 0;
    }

    function View(): StoreState
      reads this
    {
      StoreState(log, position, attempts)
    }

    method TryWrite(g: Group) returns (ok: bool)
      modifies this
      ensures (View(), ok) == Write(fails, old(View()), g)
    {
      var failed := fails(attempts);
      attempts := attempts + 1;
      if failed {
        return false;
      }
      log := log + [g];
      position := Some(Advance(position, g.position));
      return true;
    }
  }
}
