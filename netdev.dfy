/*
 * The part of the network device the CPU-port datapath updates in place:
 * its packet and byte counters (dev->stats).
 */
module Netdev {
  class NetStats {
    var txPackets: nat
    var txBytes: nat
    var rxPackets: nat
    var rxBytes: nat

    /** devm_alloc_etherdev hands back a zeroed net_device, so every counter starts at zero. */
    constructor ()
      ensures txPackets == 0 && txBytes == 0 && rxPackets == 0 && rxBytes == 0
    {
      txPackets, txBytes, rxPackets, rxBytes := 0, 0, 0, 0;
    }
  }
}
