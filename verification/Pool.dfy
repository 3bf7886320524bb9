/** What the block pool promises its users: a node is in the pool or out with exactly one user. */
module Pool {
  datatype Action = Take(n: nat) | Put(n: nat) | Grow(n: nat) | Nothing

  /** `out` is the set of nodes in users' hands, of `size` nodes ever created. */
  datatype Users = Users(size: nat, out: set<nat>)

  predicate Does(u: Users, u': Users, a: Action) {
    match a
    case Take(n) => n < u.size && n !in u.out && u' == Users(u.size, u.out + {n})
    case Put(n) => n in u.out && u' == Users(u.size, u.out - {n})
    case Grow(n) => n == u.size && n !in u.out && u' == Users(u.size + 1, u.out + {n})
    case Nothing => u' == u
  }
}
