/** A pool of free blocks, as its users see it: what each step of the free list, or of a queue, does to it. */
module BlockPool {

  type Block = nat

  datatype PoolEvent = Quiet | Took(block: Block) | Gave(block: Block)

  /** Only a block of the pool is taken, only one outside is given, and nothing else changes. */
  predicate PoolStep(pool: set<Block>, e: PoolEvent, pool': set<Block>) {
    match e
    case Quiet => pool' == pool
    case Took(b) => b in pool && pool' == pool - {b}
    case Gave(b) => b !in pool && pool' == pool + {b}
  }
}
