/** The shared queue between the tree and the thread that streams its snapshots; what that thread does
    with it is modelled in `Pipeline`. */
module BlockingQueues {

  class BlockingQueue<T> {
    var queue: seq<T>

    constructor ()
      ensures queue == []
    {
      queue := [];
    }

    method PushBack(value: T)
      modifies this
      ensures queue == old(queue) + [value]
    {
      queue := queue + [value];
    }
  }
}
