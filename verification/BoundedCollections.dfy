/** The listener's bounded collections, updated in place. */
module BoundedCollections {
  import opened Options
  import opened Recency

  /** At most `maxSize` keys: writing one more drops the key whose last write is oldest. */
  class BoundedDict<K(==), V> {
    const maxSize: nat
    var order: seq<K>
    var data: map<K, V>

    function Model(): Dict<K, V>
      reads this
    {
      Dict(order, data)
    }

    ghost predicate Valid()
      reads this
    {
      maxSize >= 1 && WellFormed(Model()) && |order| <= maxSize
    }

    constructor (maxSize: nat)
      requires maxSize >= 1
      ensures Valid() && Model() == Empty() && this.maxSize == maxSize
    {
      this.maxSize := maxSize;
      order, data := [], map[];
    }

    function Get(key: K): (r: Option<V>)
      reads this
    {
      Lookup(data, key)
    }

    predicate Contains(key: K)
      reads this
    {
      key in data
    }

    /** The keys in write order, as a value that later writes do not touch. */
    function Keys(): seq<K>
      reads this
    {
      order
    }

    method SetItem(key: K, value: V)
      requires Valid()
      modifies this
      ensures Valid()
      ensures Model() == Recency.SetItem(old(Model()), maxSize, key, value)
    {
      SetItemValid(Model(), maxSize, key, value);
      if key in data {
        order := Without(order, key) + [key];
        data := data[key := value];
        return;
      }
      if |order| >= maxSize {
        data := data - {order[0]};
        order := order[1..];
      }
      order := order + [key];
      data := data[key := value];
    }

    method Pop(key: K) returns (r: Option<V>)
      requires Valid()
      modifies this
      ensures Valid()
      ensures r == old(Get(key))
      ensures Model() == Remove(old(Model()), key)
    {
      RemoveValid(Model(), key);
      r := Get(key);
      order := Without(order, key);
      data := data - {key};
    }
  }

  /** At most `maxSize` items: adding one more drops the item whose last addition is oldest. */
  class BoundedSet<T(==)> {
    const maxSize: nat
    var order: seq<T>

    ghost predicate Valid()
      reads this
    {
      maxSize >= 1 && NoDup(order) && |order| <= maxSize
    }

    constructor (maxSize: nat)
      requires maxSize >= 1
      ensures Valid() && order == [] && this.maxSize == maxSize
    {
      this.maxSize := maxSize;
      order := [];
    }

    predicate Contains(item: T)
      reads this
    {
      item in order
    }

    method Add(item: T)
      requires Valid()
      modifies this
      ensures Valid()
      ensures order == Touch(old(order), maxSize, item)
    {
      if item in order {
        WithoutNoDup(order, item);
        WithoutMembers(order, item);
        assert item !in Members(Without(order, item));
        order := Without(order, item) + [item];
        return;
      }
      if |order| >= maxSize {
        order := order[1..];
      }
      order := order + [item];
    }
  }
}
