/** Go's `for k := range m` visits the keys of a map in an order the language
    leaves unspecified. The loops of this model stand for such a range with a
    set of keys not yet visited, from which they take any one at each step. */
module MapRange {

  /** The next key a range loop visits: any key not yet visited. */
  method NextKey<K>(pending: set<K>) returns (k: K)
    requires pending != {}
    ensures k in pending
  {
    k :| k in pending;
  }
}
