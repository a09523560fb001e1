/** Taking an element out of a set, as a loop over a map does. */
module Sets {
  method Pick<T>(s: set<T>) returns (x: T)
    requires s != {}
    ensures x in s
  {
    x :| x in s;
  }
}
