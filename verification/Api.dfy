/** The part of the custom resource that the webhooks and the allocator read. */
module Api {

  datatype Option<+T> = None | Some(value: T)

  datatype Child = Child(
    name: string,
    pools: map<string, seq<string>>,
    localIPs: seq<string>,
    remoteIPs: seq<string>,
    ifId: int,
    xfrmIP: string,
    vxlanIP: string,
    extra: map<string, string>)

  type Children = map<string, Child>

  /** A child with pools and nothing else. */
  function PoolsOnly(name: string, pools: map<string, seq<string>>): Child {
    Child(name, pools, [], [], 0, "", "", map[])
  }
}
