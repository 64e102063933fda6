/** A Go context, seen through its polls: it may turn done at any of them and stays done. */
module Contexts {

  class Context {
    var left: nat  // polls that still find the context live

    constructor (left: nat)
      ensures this.left == left
    {
      this.left := left;
    }

    method Poll() returns (done: bool)
      modifies this
      ensures done <==> old(left) == 0
      ensures left == if done then 0 else old(left) - 1
    {
      done := left == 0;
      if !done { left := left - 1; }
    }
  }
}
