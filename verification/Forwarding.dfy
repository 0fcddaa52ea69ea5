/** When a request leaves its node (kit/bridge_south.go:251-268). */
module Forwarding {

  type NodeId = string

  /** What the edge selector answers. */
  datatype Selection = Failed | Target(id: NodeId)

  /** Whether the forwarder tries to send the request away: never for a request that was itself
      forwarded, otherwise when the selector names another node. */
  predicate Forwards(forwarded: bool, self: NodeId, sel: Selection)
  {
    !forwarded && sel.Target? && sel.id != "" && sel.id != self
  }
}
