/** `RefCounted<T>`: an intrusive share counter that destroys its owner at zero. */
module RefCounting {

  class RefCounted {
    var count: int
    /** False once the owner has been deleted; no member may be used after that. */
    var live: bool

    constructor (initialCount: int := 1)
      ensures count == initialCount && live
    {
      count := initialCount;
      live := true;
    }

    method Retain()
      requires live
      modifies this
      ensures count == old(count) + 1 && live
    {
      count := count + 1;
    }

    /**
      `release()`. The source asserts that the new count is not negative;
      here that is the caller's obligation `count >= 1`. The result tells the
      owner that the count reached zero and that it must now be destroyed.
    */
    method Release() returns (destroyed: bool)
      requires live && count >= 1
      modifies this
      ensures count == old(count) - 1 && count >= 0
      ensures destroyed <==> count == 0
      ensures live <==> !destroyed
    {
      count := count - 1;
      var newCount := count;
      assert newCount >= 0;
      destroyed := newCount == 0;
      if destroyed {
        live := false;
      }
    }
  }
}
