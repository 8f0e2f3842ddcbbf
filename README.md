# RTL83xx Realtek SoC drivers — a Dafny model with proofs

This project models the core of the Linux support for the Realtek RTL838x and
RTL839x switch SoCs (MIPS, big-endian):

- **CPU-port Ethernet DMA engine** (`EthDefs`, `Ring`, `Tx`, `Rx`, `Poll`,
  `Netdev`). The ring set shared with the switch holds the RX and TX
  descriptor words (owner bit 0x1, WRAP 0x2), the packet headers and the
  CPU's cursors. `rtl83xx_setup_ringbuf` prepares it. `rtl83xx_eth_tx`
  strips a DSA trailer, pads the frame and hands the slot to the switch.
  `rtl83xx_hw_receive` and `rtl83xx_poll_rx` walk the RX rings under a
  budget. The overflow re-arm `rtl83xx_rb_cleanup` hands CPU-owned slots
  back to the switch.
- **Per-family register interface** (`Soc`, `Control`, `Rtl838x`,
  `Rtl839x`, `Eth`):
  - `dma_irq` and the interrupt handler `nic_irq_handler`;
  - the MAC-address registers and the CPU-port force mode;
  - `mac_port_rxtx`, the SMI wait and the congestion timers;
  - the RTL839x multicast port-mask entry;
  - the reset, enable and stop sequences;
  - the family selection at probe and `ndo_set_mac_address`.
- **Indirect hardware-table access** (`Tables`): the command word of each
  table and the read and write sequences through the control and data
  registers.
- **SoC identification** (`ChipId`, `RtlChipId`, `Board`, `Prom`). The
  model word is decoded into an id, a family, 5-bit model letters, a
  revision and an engineering-sample flag. The name strings are built from
  it, and `prom_init` assembles the kernel command line.
- **Platform devices**:
  - the system LED of the external-IO block (`Eio`);
  - the two drivers of the cascaded interrupt controller (`IrqRealtek`,
    `IrqRtl8380`);
  - the SPI-NOR flash controller (`SpiFlash`);
  - the MDIO bus (`Mdio`);
  - the platform ioremap hooks (`Ioremap`).

Memory-mapped registers are a `Mmio.RegFile`. It holds a map from address
to 32-bit value and the ordered trace of every CPU write. Effects the
hardware performs on its own are explicit steps or inputs:

- a busy bit clearing;
- status bits clearing on write;
- data appearing in a data register.

A poll loop that waits for such an effect takes a function telling what
the register reads at each poll. Physical addresses in the ring set are
byte offsets into the ring-set allocation.

The register addresses and bit positions of `rtl838x-eth.h` and
`rtl839x-eth.h` are carried by a `Soc.Layout` record. rtl838x-eth.h is not
part of this model, and neither is rtl839x-eth.h. Every property proved
about the two families holds for any layout. Where a member needs two
registers to be distinct, its precondition says so (for example
`Soc.IntrRegsApart`).

Several quirks of the code are kept as written:

- the `i*j*RTL_FRAMEBUF_SIZE` buffer offset;
- `val &= rxtx` in `dma_irq`;
- `address & addrsize` in the table command;
- the RTL838x force-mode disable leaving the FORCE bits set;
- `BIT(BIT(n))` in the RTL839x MDIO commands;
- the `* 0xfff0` soc id in the MDIO probe.

Where a quirk is a defect, "## Findings" shows the discrepancy and proves
the intended behaviour beside it.

## Model

| member | source | states |
|---|---|---|
| Mmio.RegFile.Write | drivers/net/ethernet/realtek/rtl83xx-eth.h:112-113 | a register write stores the value at that address and records exactly that write after the earlier ones |
| Mmio.RegFile.Mask | drivers/net/ethernet/realtek/rtl-mdio.c:39 | a read-modify-write clears the given bits of the old value, sets the others and records that one write |
| EthDefs.EncodeDecode | drivers/net/ethernet/realtek/rtl83xx-eth.c:56 | a descriptor word (header address, WRAP bit, owner bit) decodes back to itself when the header address is 4-byte aligned, so the flag bits never disturb the address |
| EthDefs.HdrAddrAligned | drivers/net/ethernet/realtek/rtl83xx-eth.h:85-104 | every RX and TX packet header inside the ring set lies at a 4-byte aligned address |
| EthDefs.BufOffsetProduct | drivers/net/ethernet/realtek/rtl83xx-eth.c:50 | the buffer of slot j of ring i is at offset i * j * RTL_FRAMEBUF_SIZE, a product rather than a row-major index |
| EthDefs.BufOffsetsInside | drivers/net/ethernet/realtek/rtl83xx-eth.c:50-64 | every RX buffer offset leaves room for a 16-bit length inside rx_space and every TX buffer a full frame inside tx_space |
| EthDefs.BufOffsetAliases | drivers/net/ethernet/realtek/rtl83xx-eth.c:50 | the product offset aliases buffers: every slot of ring 0 and slot 0 of ring 1 share buffer 0 |
| EthDefs.RxIxInjective | drivers/net/ethernet/realtek/rtl83xx-eth.h:95-104 | the row-major index of the two-dimensional descriptor arrays names each (ring, slot) pair exactly once |
| Ring.RearmWordIsSetupWord | drivers/net/ethernet/realtek/rtl838x-eth.c:184-185 | a re-armed RX descriptor equals the word set-up gave the slot: switch-owned, WRAP on the last slot only, pointing at the slot's own header |
| Ring.NextSlot | drivers/net/ethernet/realtek/rtl838x-eth.c:186 | the cursor wraps to slot 0 exactly after the last slot |
| Ring.StepMod | drivers/net/ethernet/realtek/rtl838x-eth.c:186 | n advances of the cursor move it by n modulo the ring length |
| Ring.StepFullTurn | drivers/net/ethernet/realtek/rtl838x-eth.c:174-187 | a full turn of the ring brings the cursor back to its start |
| Ring.CleanupCount | drivers/net/ethernet/realtek/rtl838x-eth.c:174-187 | the number of slots one ring's overflow re-arm hands back never exceeds one turn of the ring |
| Ring.RearmStep | drivers/net/ethernet/realtek/rtl838x-eth.c:177-186 | one re-arm step keeps the ring set well formed (cursors inside their rings) |
| Ring.RearmAfter | drivers/net/ethernet/realtek/rtl838x-eth.c:174-187 | after n re-arm steps on ring r only ring r's cursor has moved, by n slots modulo the ring length |
| Ring.VisitedStep | drivers/net/ethernet/realtek/rtl838x-eth.c:186 | each further step of the walk visits exactly the next slot after the cursor |
| Ring.VisitedStart | drivers/net/ethernet/realtek/rtl838x-eth.c:175-177 | the cursor slot is the first slot the walk visits |
| Ring.StepUnvisited | drivers/net/ethernet/realtek/rtl838x-eth.c:186-187 | within one turn the walk never comes back to a slot it has already visited |
| Ring.RearmVisit | drivers/net/ethernet/realtek/rtl838x-eth.c:177-186 | a re-arm step writes the one slot it newly visits and no slot of another ring |
| Ring.RearmWords | drivers/net/ethernet/realtek/rtl838x-eth.c:184-185 | after n steps exactly the visited slots of ring r hold the re-armed descriptor word; every other descriptor word of every ring is unchanged |
| Ring.RearmHdrs | drivers/net/ethernet/realtek/rtl838x-eth.c:177-181 | after n steps exactly the visited headers of ring r have their buffer, size and length reset; every other header is unchanged |
| Ring.CleanupCountStop | drivers/net/ethernet/realtek/rtl838x-eth.c:175-176 | the re-arm stops at a switch-owned slot, and after a whole turn |
| Ring.CleanupCountNext | drivers/net/ethernet/realtek/rtl838x-eth.c:184-187 | at a CPU-owned slot the re-arm hands it back and then stops exactly when the next cursor position is the hardware's current descriptor |
| Ring.CursorSlot | drivers/net/ethernet/realtek/rtl838x-eth.c:174-187 | the slot under the cursor after n steps is untouched before a full turn and switch-owned after one |
| Ring.CleanupCountSpec | drivers/net/ethernet/realtek/rtl838x-eth.c:174-187 | the re-arm only hands back CPU-owned slots, never moves past the hardware pointer, and stops after a full turn, at a switch-owned slot, or on reaching the hardware pointer |
| Ring.CleanupRearmsCursorSlot | drivers/net/ethernet/realtek/rtl838x-eth.c:174-187 | because the do-while tests the pointer after the body, a CPU-owned cursor slot is re-armed even when the hardware already points at it |
| Ring.WalkStop | drivers/net/ethernet/realtek/rtl838x-eth.c:175-176 | the loop meets a switch-owned slot only where the count says the walk ends |
| Ring.WalkRearm | drivers/net/ethernet/realtek/rtl838x-eth.c:177-187 | re-arming a CPU-owned slot is the next step of the walk and keeps the loop in step with the count |
| Ring.WalkStep | drivers/net/ethernet/realtek/rtl838x-eth.c:174-187 | a pass of the do-while keeps the walk relation, adding one step unless the slot was switch-owned |
| Ring.RingSet.constructor | drivers/net/ethernet/realtek/rtl83xx-eth.h:95-104 | the ring set is a fresh zeroed allocation whose arrays have the shapes the header declares |
| Ring.RingSet.SetupRxSlot | drivers/net/ethernet/realtek/rtl83xx-eth.c:49-56 | slot j of RX ring i gets its header and a switch-owned descriptor word, and no other slot changes |
| Ring.RingSet.SetupRxRing | drivers/net/ethernet/realtek/rtl83xx-eth.c:47-59 | every descriptor of RX ring i is handed to the switch with WRAP only on the last slot, every header is reset, and the other rings are unchanged |
| Ring.RingSet.SetupTxRing | drivers/net/ethernet/realtek/rtl83xx-eth.c:61-74 | every descriptor of TX ring i stays with the CPU, WRAP is set on the last slot, every header is reset, and the other rings are unchanged |
| Ring.RingSet.SetupRingbuf | drivers/net/ethernet/realtek/rtl83xx-eth.c:42-75 | every descriptor word gets its set-up value, every header the product buffer offset, a full size, offset 0 and length 0, and every cursor is 0 |
| Ring.RingSet.RearmSlot | drivers/net/ethernet/realtek/rtl838x-eth.c:177-186 | the cursor slot of ring r is re-armed and handed back to the switch, and the cursor advances |
| Ring.RingSet.RearmOnce | drivers/net/ethernet/realtek/rtl838x-eth.c:175-187 | one pass of the do-while: a switch-owned cursor slot ends the walk with nothing changed, otherwise the slot is re-armed and the walk ends when the cursor reaches the hardware pointer |
| Ring.RingSet.RearmRing | drivers/net/ethernet/realtek/rtl838x-eth.c:171-188 | the re-arm of one ring hands back exactly CleanupCount slots and leaves the ring set as that many re-arm steps do |
| Tx.DestPortFound | drivers/net/ethernet/realtek/rtl83xx-eth.c:136-143 | a destination port is found only under DSA and only from a well-formed trailer, it is the trailer's port byte, and it lies in 1..27; otherwise the port is -1 |
| Tx.FrameLenBounds | drivers/net/ethernet/realtek/rtl83xx-eth.c:135-147 | every frame goes out with at least 64 bytes and none of its own bytes cut; a long untagged frame grows by exactly the 4-byte FCS, a long tagged frame keeps its length because the trailer's bytes become the FCS slot |
| Tx.Pow2Injective | drivers/net/ethernet/realtek/rtl83xx-eth.c:169-170 | distinct ports have distinct port masks |
| Tx.PortMaskFits | drivers/net/ethernet/realtek/rtl83xx-eth.c:169-170 | the port mask of any port a trailer can name fits in 28 bits, so the two 16-bit tag words hold it without loss |
| Tx.TxCpuTagNamesPort | drivers/net/ethernet/realtek/rtl83xx-eth.c:164-177 | a directed frame's CPU tag carries 0x0400, 0x0200 and two mask words that join to 1 << port and name no other port; an undirected frame's tag is all zero |
| Tx.PaddedContents | drivers/net/ethernet/realtek/rtl83xx-eth.c:149 | padding keeps the frame as its prefix, fills the rest with zeros and gives exactly the requested length |
| Tx.CopyFrame | drivers/net/ethernet/realtek/rtl83xx-eth.c:180 | the frame is copied to the start of tx_space and the rest of tx_space is unchanged |
| Tx.TxLength | drivers/net/ethernet/realtek/rtl83xx-eth.c:135-147 | the loop-free length computation returns the frame length and destination port the specification functions give |
| Tx.FillSlot | drivers/net/ethernet/realtek/rtl83xx-eth.c:158-184 | the slot's header gets the length, size and CPU tag, its descriptor gets the owner bit, and nothing else in the rings changes |
| Tx.HandOver | drivers/net/ethernet/realtek/rtl83xx-eth.c:156-192 | with a CPU-owned slot the padded frame is in tx_space, the slot is filled and handed to the switch, and only ring 0's TX cursor advances, by one modulo the ring length |
| Tx.EthTx | drivers/net/ethernet/realtek/rtl83xx-eth.c:123-201 | the result is NETDEV_TX_BUSY exactly when padding succeeded and the switch owns the cursor slot, and then nothing changes; a padding failure drops the frame with NETDEV_TX_OK and nothing changed; otherwise the frame is handed over, TX fetch is triggered and the TX counters grow by one packet and the frame length |
| Rx.FrameContents | drivers/net/ethernet/realtek/rtl83xx-eth.c:397-424 | a delivered frame is the received bytes without the CRC, followed under DSA by a rebuilt trailer, and exactly those bytes without DSA |
| Rx.FrameRoutesBack | drivers/net/ethernet/realtek/rtl83xx-eth.c:419-424 | a frame received under DSA from source port p in 1..27 and sent back out is directed by the transmit path to port p; other tags give no port |
| Rx.RecvCount | drivers/net/ethernet/realtek/rtl83xx-eth.c:377-439 | the number of frames one call takes never exceeds one turn of the ring |
| Rx.RecvCountBudget | drivers/net/ethernet/realtek/rtl83xx-eth.c:439 | with a positive budget the number of frames taken never exceeds it |
| Rx.ReceivedBudget | drivers/net/ethernet/realtek/rtl83xx-eth.c:373-439 | a positive budget is never exceeded, and a budget of 0 or less still lets one frame through because the budget is compared only after the body |
| Rx.RecvCountSpec | drivers/net/ethernet/realtek/rtl83xx-eth.c:377-439 | every slot taken was CPU-owned and non-empty, the cursor did not meet the hardware pointer before the last one, and the walk stopped at a full turn, a switch-owned or empty slot, the hardware pointer or the budget |
| Rx.CursorHdr | drivers/net/ethernet/realtek/rtl83xx-eth.c:385-387 | before a full turn the header under the cursor is still the one the walk started with |
| Rx.RearmKeepsReady | drivers/net/ethernet/realtek/rtl83xx-eth.c:391-394 | re-arming a slot keeps every RX header pointing at a buffer inside rx_space |
| Rx.RecvWalkStop | drivers/net/ethernet/realtek/rtl83xx-eth.c:378-390 | the loop meets a switch-owned or empty slot only where the count says the walk ends |
| Rx.RecvWalkTake | drivers/net/ethernet/realtek/rtl83xx-eth.c:385-439 | taking the frame of a CPU-owned, non-empty slot is the next step of the walk and appends the next frame to the delivered list |
| Rx.RecvWalkPass | drivers/net/ethernet/realtek/rtl83xx-eth.c:377-439 | one pass of the do-while keeps the walk relation, and a delivered frame is the next one of the list |
| Rx.ReceiveSlot | drivers/net/ethernet/realtek/rtl83xx-eth.c:378-438 | a switch-owned or empty slot gives nothing; otherwise the frame is copied out, the header gets a fresh buffer, full size and length 0, the slot goes back to the switch and the cursor advances |
| Rx.CounterRegsStable | drivers/net/ethernet/realtek/rtl83xx-eth.c:407-413 | each RX ring counter is written back with the value it holds, so repeating the refresh changes no register and writes the same values |
| Rx.CountersStep | drivers/net/ethernet/realtek/rtl83xx-eth.c:405-413 | each delivered frame adds one counter refresh to the register state and the trace, and a pass without a frame adds none |
| Rx.CopiedGet | drivers/net/ethernet/realtek/rtl83xx-eth.c:409-413 | a counter not yet written back still reads as it did before the refresh began |
| Rx.RefreshCounters | drivers/net/ethernet/realtek/rtl83xx-eth.c:407-413 | the ring size register is set to all ones and every RX ring counter is written back with its own value, in ring order |
| Rx.ReceiveOne | drivers/net/ethernet/realtek/rtl83xx-eth.c:378-438 | one pass of the do-while: a delivered frame refreshes the counters and adds one packet and its length to the RX counters; otherwise neither registers nor counters change |
| Rx.WalkOne | drivers/net/ethernet/realtek/rtl83xx-eth.c:377-439 | one pass inside the walk advances the walk, the registers and the trace by exactly one frame, or ends the walk with nothing changed |
| Rx.ReceiveStep | drivers/net/ethernet/realtek/rtl83xx-eth.c:377-439 | after any number of passes the delivered list is the walk's frames and the RX counters have grown by their number and total length |
| Rx.HwReceive | drivers/net/ethernet/realtek/rtl83xx-eth.c:357-443 | the result is the number of frames from the cursor up to the first switch-owned or empty slot, the hardware pointer or the budget; exactly those slots are re-armed, the frames are delivered in ring order, and the RX counters grow by their number and total length |
| Poll.ReceivedFilled | drivers/net/ethernet/realtek/rtl83xx-eth.c:385-390 | every slot a receive walk takes held a non-empty frame |
| Poll.RearmAfterReady | drivers/net/ethernet/realtek/rtl83xx-eth.c:391-394 | however many slots are re-armed, every RX header still points at a buffer inside rx_space |
| Poll.PollRing | drivers/net/ethernet/realtek/rtl83xx-eth.c:450-453 | a pass of the poll loop keeps the RX headers ready for the switch |
| Poll.PollAfter | drivers/net/ethernet/realtek/rtl83xx-eth.c:450-453 | the poll state after any number of rings keeps the RX headers ready for the switch |
| Poll.PollRingBudget | drivers/net/ethernet/realtek/rtl83xx-eth.c:450-451 | walking a ring with the budget that is left keeps the total within a positive budget |
| Poll.PollBudget | drivers/net/ethernet/realtek/rtl83xx-eth.c:445-461 | with a positive budget the poll never reports more frames than the budget |
| Poll.PollStops | drivers/net/ethernet/realtek/rtl83xx-eth.c:450 | once the budget is used up the remaining rings are not walked and change nothing |
| Poll.PollNoBudget | drivers/net/ethernet/realtek/rtl83xx-eth.c:450-456 | a budget of zero or less walks no ring, counts nothing and writes nothing |
| Poll.PollOne | drivers/net/ethernet/realtek/rtl83xx-eth.c:451-452 | one ring of the poll loop matches the specification state one ring further on, and the RX counters grow by its frames |
| Poll.PollRings | drivers/net/ethernet/realtek/rtl83xx-eth.c:448-453 | the poll loop leaves the rings, registers, trace and RX counters as the specification walk over all rings does |
| Poll.ReenableIfIdle | drivers/net/ethernet/realtek/rtl83xx-eth.c:454-458 | when fewer frames than the budget came in, exactly one write re-enables the RX interrupts through the mask register; otherwise neither registers nor the write trace change |
| Poll.PollRx | drivers/net/ethernet/realtek/rtl83xx-eth.c:445-461 | the total of the walked rings is returned and the RX interrupts are re-enabled exactly when it is below the budget |
| Netdev.NetStats.constructor | drivers/net/ethernet/realtek/rtl83xx-eth.c:476 | the interface's packet and byte counters start at zero, as in the zeroed net_device devm_alloc_etherdev returns |
| Soc.DmaIrqOr | drivers/net/ethernet/realtek/rtl838x-eth.c:294-295 | enabling ORs the RX/TX interrupt bits into the mask |
| Soc.DmaIrqAnd | drivers/net/ethernet/realtek/rtl838x-eth.c:296-297 | disabling, as written, ANDs the mask with the RX/TX interrupt bits |
| Soc.DmaIrqEnables | drivers/net/ethernet/realtek/rtl838x-eth.c:286-299 | enabling turns every RX/TX interrupt on |
| Soc.DmaIrqEnableKeeps | drivers/net/ethernet/realtek/rtl838x-eth.c:286-299 | enabling keeps every mask bit outside the RX/TX interrupts |
| Soc.DmaIrqDisableKeepsEnabled | drivers/net/ethernet/realtek/rtl838x-eth.c:296-297 | as written, a disable after an enable leaves exactly the RX/TX bits set: it turns no RX/TX interrupt off and clears only the unrelated bits |
| Soc.DmaIrqIntendedDisables | drivers/net/ethernet/realtek/rtl838x-eth.c:286-299 | with the corrected `&= ~rxtx`, disabling turns every RX/TX interrupt off |
| Soc.DmaIrqIntendedDisableKeeps | drivers/net/ethernet/realtek/rtl838x-eth.c:286-299 | with the correction, disabling keeps every other mask bit |
| Soc.DmaIrqIntendedAgrees | drivers/net/ethernet/realtek/rtl838x-eth.c:294-295 | the code and the correction agree on every enable |
| Soc.SetBits | drivers/net/ethernet/realtek/rtl838x-eth.c:191-199 | a read-modify-write sets or clears the given bits of one register, writing it once |
| Soc.ClearStatus | drivers/net/ethernet/realtek/rtl838x-eth.c:313-316 | writing bits to the write-1-to-clear status register records the write and clears exactly those bits |
| Soc.DmaIfFetch | drivers/net/ethernet/realtek/rtl838x-eth.c:88-96 | the TX-fetch bit of DMA_IF_CTRL is set or cleared and the rest of the register kept, in one write |
| Soc.DmaIfRxtx | drivers/net/ethernet/realtek/rtl838x-eth.c:191-199 | both the TX and RX enable bits of DMA_IF_CTRL are set or cleared and the rest kept, in one write |
| Soc.MacPortRxtx | drivers/net/ethernet/realtek/rtl838x-eth.c:98-106 | the CPU port's TX/RX enable bits are set or cleared and the rest kept, in one write |
| Soc.DmaIrq | drivers/net/ethernet/realtek/rtl838x-eth.c:286-299 | the interrupt mask register gets the dma_irq value of its old contents, in one write |
| Soc.CleanupBoth | drivers/net/ethernet/realtek/rtl838x-eth.c:171-188 | re-arming ring 0 and then ring 1 keeps the ring set well formed |
| Soc.RbCleanup | drivers/net/ethernet/realtek/rtl838x-eth.c:164-189 | each RX ring in turn is re-armed from its cursor up to the hardware pointer read for it, and no register is written |
| Soc.IrqStatusCleared | drivers/net/ethernet/realtek/rtl838x-eth.c:301-337 | after the handler the status register shows none of the events it acknowledged |
| Soc.IrqStatusKeeps | drivers/net/ethernet/realtek/rtl838x-eth.c:301-337 | the handler keeps every status bit it did not acknowledge |
| Soc.IrqAcksSeen | drivers/net/ethernet/realtek/rtl838x-eth.c:310-332 | every event class the status shows (TX done, RX done, RX run-out) is acknowledged |
| Soc.IrqMaskRxDone | drivers/net/ethernet/realtek/rtl838x-eth.c:319-323 | on RX done every RX-done interrupt is masked |
| Soc.AckIfSeen | drivers/net/ethernet/realtek/rtl838x-eth.c:313-316 | a status class is acknowledged with one write exactly when the status showed it |
| Soc.AckRxDone | drivers/net/ethernet/realtek/rtl838x-eth.c:319-326 | on RX done the RX-done interrupts are masked and then acknowledged |
| Soc.AckIrqs | drivers/net/ethernet/realtek/rtl838x-eth.c:310-332 | the handler's acknowledgements and masking leave the mask with RX done masked when seen and the status with the acknowledged bits cleared, written in the handler's order |
| Soc.NicIrqHandler | drivers/net/ethernet/realtek/rtl838x-eth.c:301-337 | the status is read once; the poll is scheduled exactly on RX done; the registers and trace are as the acknowledgements leave them; and on run-out the rings are re-armed |
| Control.MacRoundTrip | drivers/net/ethernet/realtek/rtl838x-eth.c:73-74 | packing a MAC address into the two register words loses nothing: the words read back as the address written |
| Control.MacHiHighClear | drivers/net/ethernet/realtek/rtl838x-eth.c:73 | the first MAC register word uses only its low 16 bits |
| Control.NicReset | drivers/net/ethernet/realtek/rtl838x-eth.c:217-223 | the self-clearing NIC reset bit is written once and the call returns only once it reads clear; the interrupt mask holds the value the reset leaves |
| Control.FlushCmdPort | drivers/net/ethernet/realtek/rtl838x-eth.c:252 | each L2 flush command carries its own port number, so no two ports share a command |
| Control.FlushCmdFlags | drivers/net/ethernet/realtek/rtl838x-eth.c:252 | every flush command starts the flush and compares by port |
| Control.FlushWritesSnoc | drivers/net/ethernet/realtek/rtl838x-eth.c:251-256 | the flush writes for ports 0 to n-1 are those for ports 0 to n-2 followed by the command for port n-1 |
| Control.FlushCoversPorts | drivers/net/ethernet/realtek/rtl838x-eth.c:251-256 | every port below the CPU port is flushed exactly once, in port order, through the flush control register |
| Control.L2FlushPorts | drivers/net/ethernet/realtek/rtl838x-eth.c:246-257 | one flush command per port below the CPU port is written, each waited for until the switch clears its status bit |
| Control.QuietMasks | drivers/net/ethernet/realtek/rtl838x-eth.c:280-282 | afterwards every DMA interrupt is masked and the status shows none of the cleared bits |
| Control.Quiesce | drivers/net/ethernet/realtek/rtl838x-eth.c:280-282 | 0 is written to the interrupt mask and then the given bits to the write-1-to-clear status register |
| Control.EnableOutcome | drivers/net/ethernet/realtek/rtl838x-eth.c:201-215 | after enable_rxtx DMA runs both ways, the twenty RX/TX interrupts are unmasked and the ring size register is all ones |
| Tables.TableConstants | drivers/net/ethernet/realtek/rtl83xx-tables.c:22-94 | every initialised table has its execute bit right above its operation bit; the RTL838x tables read with operation 1 and write with 0, the RTL839x tables the other way round; the unlisted RTL838X_TBL_2 is all zero |
| Tables.Tbl0AddressAliases | drivers/net/ethernet/realtek/rtl83xx-tables.c:110-111 | the address is ANDed with the field's position number rather than a mask, so for RTL838X_TBL_0 the addresses 0 to 3 all select entry 0 |
| Tables.Tbl2AddressAliases | drivers/net/ethernet/realtek/rtl83xx-tables.c:110-111 | for RTL839X_TBL_2 address 2 selects the same entry as address 0 |
| Tables.CmdDecode | drivers/net/ethernet/realtek/rtl83xx-tables.c:110-111 | for an initialised table and a subtable that fits its field, a command decodes back into its operation, and a read and a write with the same arguments differ in the operation bit alone |
| Tables.Decode15 | drivers/net/ethernet/realtek/rtl83xx-tables.c:23-42 | commands decode for the field layout of RTL838X_TBL_0, RTL838X_TBL_1 and RTL839X_TBL_1 |
| Tables.Decode16 | drivers/net/ethernet/realtek/rtl83xx-tables.c:43-52 | commands decode for the field layout of RTL838X_TBL_L2 |
| Tables.Decode16x | drivers/net/ethernet/realtek/rtl83xx-tables.c:54-63 | commands decode for the field layout of RTL839X_TBL_0 |
| Tables.Decode9 | drivers/net/ethernet/realtek/rtl83xx-tables.c:74-83 | commands decode for the field layout of RTL839X_TBL_2 |
| Tables.Decode17 | drivers/net/ethernet/realtek/rtl83xx-tables.c:84-93 | commands decode for the field layout of RTL839X_TBL_L2 |
| Tables.HwRun | drivers/net/ethernet/realtek/rtl83xx-tables.c:96-102 | once the switch has run a command its execute bit is clear |
| Tables.WriteThenRead | drivers/net/ethernet/realtek/rtl83xx-tables.c:104-136 | writing a row and reading it back with the same table, subtable and address returns the row written |
| Tables.ReadAfterWrite | drivers/net/ethernet/realtek/rtl83xx-tables.c:104-136 | once a row is written, a later read of the same entry returns it whatever registers changed in between |
| Tables.ReadReturns | drivers/net/ethernet/realtek/rtl83xx-tables.c:104-119 | a read leaves the selected entry in the three data registers |
| Tables.ReadSeesTable | drivers/net/ethernet/realtek/rtl83xx-tables.c:104-119 | what a read returns depends on the table memory alone, not on the other registers |
| Tables.ReadKeepsTable | drivers/net/ethernet/realtek/rtl83xx-tables.c:104-119 | a read leaves the table memory as it was |
| Tables.TableHw.constructor | drivers/net/ethernet/realtek/rtl83xx-tables.c:22 | the table memory starts with no entry written |
| Tables.TableHw.Complete | drivers/net/ethernet/realtek/rtl83xx-tables.c:100-101 | the switch executes the command in the control register and clears the execute bit; the CPU writes nothing |
| Tables.RunTableCmd | drivers/net/ethernet/realtek/rtl83xx-tables.c:96-102 | the command is written to the control register once, the switch runs it, and the call returns with the execute bit clear |
| Tables.TableRead | drivers/net/ethernet/realtek/rtl83xx-tables.c:104-119 | the read command is the only write; the switch loads the entry and the three data registers are returned |
| Tables.TableWrite | drivers/net/ethernet/realtek/rtl83xx-tables.c:121-136 | the three data registers are written at data_base + 0, 4, 8 and then the write command, and the switch stores them into the selected entry |
| Rtl838x.Polls | drivers/net/ethernet/realtek/rtl838x-eth.c:17-20 | the do-while polls the SMI busy bit at least once |
| Rtl838x.SmiWaitOp | drivers/net/ethernet/realtek/rtl838x-eth.c:15-25 | the loop polls as often as the specification count says and returns the result the specification gives |
| Rtl838x.PollsFirstClear | drivers/net/ethernet/realtek/rtl838x-eth.c:17-20 | when the busy bit first reads clear at poll c, polling stops after that poll or once the timeout runs out, whichever comes first |
| Rtl838x.PollsStuck | drivers/net/ethernet/realtek/rtl838x-eth.c:17-20 | while the bit stays set, polling with t left polls t + 1 times |
| Rtl838x.SmiWaitSucceeds | drivers/net/ethernet/realtek/rtl838x-eth.c:15-25 | the wait returns 0 exactly when the busy bit first reads clear at a poll c with c + 1 below the timeout; a bit clearing on the last allowed poll still gives -1 |
| Rtl838x.SmiWaitStuck | drivers/net/ethernet/realtek/rtl838x-eth.c:15-25 | a bit that never clears gives -1 after timeout + 1 polls |
| Rtl838x.CongestionCovers | drivers/net/ethernet/realtek/rtl838x-eth.c:28-40 | the congestion timer of port i (0..28) is zeroed exactly on an RTL8382, or on an RTL8380 for i of 8 or more, and every write is a zero |
| Rtl838x.ZeroTimers | drivers/net/ethernet/realtek/rtl838x-eth.c:33-37 | the loop zeroes the congestion timers of ports lo to 28, one write each, in port order |
| Rtl838x.InitCongestionTimers | drivers/net/ethernet/realtek/rtl838x-eth.c:28-40 | the writes made are exactly the congestion writes the SoC id selects |
| Rtl838x.EeeWordFields | drivers/net/ethernet/realtek/rtl838x-eth.c:42-46 | with a delay below 0x1000 the pause-wake, delay and wake timers occupy separate fields and read back unchanged |
| Rtl838x.InitMac | drivers/net/ethernet/realtek/rtl838x-eth.c:48-55 | the gigabit and GE-lite EEE timers get (5, 20, 17) and (5, 20, 23), then the congestion timers are initialised |
| Rtl838x.SetMacAddr | drivers/net/ethernet/realtek/rtl838x-eth.c:66-86 | the packed address is written to the MAC_ADDR, MAC_ALE and MAC2 register pairs, in that order |
| Rtl838x.SetMacReadsBack | drivers/net/ethernet/realtek/rtl838x-eth.c:66-86 | afterwards each of the three register pairs reads back as the address set |
| Rtl838x.MacForceMode | drivers/net/ethernet/realtek/rtl838x-eth.c:108-127 | the CPU port's force-mode register gets its force-mode value in one read-modify-write |
| Rtl838x.ForceEnableSets | drivers/net/ethernet/realtek/rtl838x-eth.c:122-123 | enabling sets every mode bit and both force bits |
| Rtl838x.ForceDisableClears | drivers/net/ethernet/realtek/rtl838x-eth.c:124-125 | disabling clears every mode bit and nothing else |
| Rtl838x.ForceDisableKeepsLink | drivers/net/ethernet/realtek/rtl838x-eth.c:119-125 | after an enable, a disable leaves FORCE_LINK_EN and MAC_FORCE_EN set: the link stays forced |
| Rtl838x.Reset | drivers/net/ethernet/realtek/rtl838x-eth.c:225-243 | the registers and trace are those of stopping the CPU port, the NIC reset, restarting the port, forcing its link, then masking and clearing all interrupts |
| Rtl838x.ResetOutcome | drivers/net/ethernet/realtek/rtl838x-eth.c:225-243 | after reset the NIC reset has completed, the CPU port is enabled with its link forced up, every DMA interrupt is masked and the status is clear |
| Rtl838x.EnableRxtx | drivers/net/ethernet/realtek/rtl838x-eth.c:201-215 | the ring size register, the interrupt mask and the DMA enable bits are written in that order |
| Rtl838x.Stop | drivers/net/ethernet/realtek/rtl838x-eth.c:259-284 | the blocking entry is written to table 0, the ports are flushed, the link is released, DMA is disabled and the interrupts masked and cleared, in that order |
| Rtl838x.StopOutcome | drivers/net/ethernet/realtek/rtl838x-eth.c:259-284 | after stop DMA is off both ways, every DMA interrupt is masked, the RX/TX status bits are clear, and table 0, subtable 2, address 0 reads back the blocking entry |
| Rtl839x.DefaultPmskPorts | drivers/net/ethernet/realtek/rtl839x-eth.c:30-35 | the default multicast port-mask entry holds exactly the ports other than the CPU port |
| Rtl839x.FloodAddsCpu | drivers/net/ethernet/realtek/rtl839x-eth.c:235 | setting the top bit of the first word adds the CPU port and keeps every other port's membership |
| Rtl839x.InitMac | drivers/net/ethernet/realtek/rtl839x-eth.c:30-36 | the default MC_PMSK entry is written to L2 table subtable 2, address 0 |
| Rtl839x.SetMacAddr | drivers/net/ethernet/realtek/rtl839x-eth.c:101-111 | the packed address is written to the MAC_ADDR register pair |
| Rtl839x.SetMacReadsBack | drivers/net/ethernet/realtek/rtl839x-eth.c:101-111 | afterwards the register pair reads back as the address set |
| Rtl839x.MacForceMode | drivers/net/ethernet/realtek/rtl839x-eth.c:133-141 | FORCE_LINK_EN and MAC_FORCE_EN are set or cleared together in one read-modify-write |
| Rtl839x.ForceDisableDropsLink | drivers/net/ethernet/realtek/rtl839x-eth.c:133-141 | unlike the RTL838x, a disable after an enable drops the forced link and restores every other bit |
| Rtl839x.NotifyRestored | drivers/net/ethernet/realtek/rtl839x-eth.c:263-266 | the restored mask holds the notify bits as saved before the NIC reset and the other bits as the reset left them |
| Rtl839x.Reset | drivers/net/ethernet/realtek/rtl839x-eth.c:247-277 | the registers and trace are those of stopping the CPU port, saving the notify bits, the NIC reset, restoring them, restarting the port, forcing its link, then masking and clearing all interrupts |
| Rtl839x.ResetRestoresNotify | drivers/net/ethernet/realtek/rtl839x-eth.c:255-266 | the third write of reset merges the saved notify bits into the mask the NIC reset left |
| Rtl839x.ResetOutcome | drivers/net/ethernet/realtek/rtl839x-eth.c:247-277 | after reset the NIC reset has completed, the CPU port is enabled with its link forced, and every interrupt is masked with the status clear, so the restored notify bits do not survive |
| Rtl839x.EnableRxtx | drivers/net/ethernet/realtek/rtl839x-eth.c:215-237 | the ring size, interrupt mask and DMA enable writes are followed by a read and a write-back of the MC_PMSK entry with the CPU port added |
| Rtl839x.EnableFloodsCpu | drivers/net/ethernet/realtek/rtl839x-eth.c:232-236 | afterwards the entry holds the CPU port and, for every other port, what it held before |
| Rtl839x.InitThenEnableFloodsAll | drivers/net/ethernet/realtek/rtl839x-eth.c:15-237 | init_mac followed by enable_rxtx floods traffic to every port, the CPU port included |
| Rtl839x.Stop | drivers/net/ethernet/realtek/rtl839x-eth.c:293-309 | the ports are flushed, the link is released, DMA is disabled and the interrupts masked and cleared, in that order |
| Rtl839x.StopOutcome | drivers/net/ethernet/realtek/rtl839x-eth.c:293-309 | after stop DMA is off both ways, the CPU port's link is no longer forced, every DMA interrupt is masked and the RX/TX status bits are clear |
| Eth.SelectFamilyIds | drivers/net/ethernet/realtek/rtl83xx-eth.c:505-519 | every chip of the RTL838x family gets the RTL838x interface with CPU port 28, every chip of the RTL839x family the RTL839x interface with CPU port 52, and any other id is refused |
| Eth.SelectIgnoresChip | drivers/net/ethernet/realtek/rtl83xx-eth.c:506 | the last hex digit of the id, the chip within the family, does not change the choice |
| Eth.ProbeFamily | drivers/net/ethernet/realtek/rtl83xx-eth.c:505-519 | on a known family the CPU port is recorded and that family's init_mac runs, and on RTL838x the registers end as its EEE and congestion-timer writes leave them with the table memory unchanged; otherwise the probe fails with -ENODEV before touching any register or table |
| Eth.SetMacAddress | drivers/net/ethernet/realtek/rtl83xx-eth.c:203-216 | an invalid address is refused with -EADDRNOTAVAIL and nothing changes; otherwise it becomes the device address and is programmed into the switch |
| Eth.SetMacAddressReadsBack | drivers/net/ethernet/realtek/rtl83xx-eth.c:203-216 | after an accepted address the switch's MAC_ADDR register pair reads back as that address, in either family |
| Ioremap.IsInternalRegisters | arch/mips/include/asm/realtek/ioremap.h:5-14 | the predicate answers 0 or 1 |
| Ioremap.InternalIsTopByte | arch/mips/include/asm/realtek/ioremap.h:5-14 | an offset is internal exactly when its top address byte is 0xb8 or 0xbb, an independent description of the two 16 MiB windows |
| Ioremap.InternalBounds | arch/mips/include/asm/realtek/ioremap.h:8-11 | each lower bound is inclusive and each upper bound exclusive |
| Ioremap.PlatIoremap | arch/mips/include/asm/realtek/ioremap.h:16-22 | the mapping is the address itself or NULL |
| Ioremap.RemapUnmap | arch/mips/include/asm/realtek/ioremap.h:16-27 | size and flags play no part; the mapping is non-NULL exactly for internal addresses; unmapping such a mapping reports it handled, and NULL never is |
| Eio.SysLedPos | drivers/mfd/realtek-eio.c:141-156 | the system LED field is at bit 16 on the RTL8380 and bit 15 on the RTL8390, and two bits wide it fits the 32-bit register |
| Eio.WithModeReads | drivers/mfd/realtek-eio.c:54-60 | after an update the field reads as the mode's low two bits |
| Eio.WithModeKeeps | drivers/mfd/realtek-eio.c:54-60 | an update keeps every bit outside the two-bit field |
| Eio.BrightnessRoundTrip | drivers/mfd/realtek-eio.c:62-90 | for either polarity the mode written for a brightness reads back as LED_OFF for LED_OFF and LED_ON for any other brightness |
| Eio.PolarityInverts | drivers/mfd/realtek-eio.c:68-72 | active-low inverts which mode, off or on, is written for a brightness |
| Eio.BlinkReadsOn | drivers/mfd/realtek-eio.c:85-89 | both blinking modes read back as LED_ON whatever the polarity |
| Eio.BlinkChoiceRates | drivers/mfd/realtek-eio.c:97-109 | the choice is 64/64 with the 64 ms mode or 1024/1024 with the 1024 ms mode, on and off times equal to the mode's period |
| Eio.BlinkIdempotent | drivers/mfd/realtek-eio.c:97-109 | asking again with the delays blink_set handed back selects the same rate and delays |
| Eio.BlinkWrapsToSlow | drivers/mfd/realtek-eio.c:97-100 | delays whose 32-bit sum wraps to zero count as a zero interval and select the slow rate |
| Eio.SysLed.constructor | drivers/mfd/realtek-eio.c:114-130 | the variant fixes the field position and the device tree the polarity; the register is the controller's |
| Eio.SysLed.Set | drivers/mfd/realtek-eio.c:54-60 | the register becomes its old value with the mode's low two bits in the field |
| Eio.SysLed.BrightnessSet | drivers/mfd/realtek-eio.c:62-73 | the field gets the off or on mode the polarity and the brightness select |
| Eio.SysLed.BrightnessGet | drivers/mfd/realtek-eio.c:75-90 | the brightness read is LED_OFF or LED_ON as the field and the polarity decide |
| Eio.SysLed.BlinkSet | drivers/mfd/realtek-eio.c:92-112 | blink_set always returns 0, hands back the chosen delays and puts the chosen blinking mode in the field |
| Eio.BlinkSetReads | drivers/mfd/realtek-eio.c:92-112 | after blink_set the field holds the chosen blinking mode and the other bits are kept |
| Eio.SetThenGet | drivers/mfd/realtek-eio.c:62-90 | setting a brightness and reading it back through the register gives LED_OFF or LED_ON as set |
| IrqRealtek.IrrIndex | drivers/irqchip/irq-realtek.c:32-36 | every source's routing nibble lies in one of the four routing registers IRR0..IRR3 |
| IrqRealtek.Irr0Routes | drivers/irqchip/irq-realtek.c:55-63 | each source packed into IRR0 reads back its own routing value: no nibble overlaps another |
| IrqRealtek.Irr1Routes | drivers/irqchip/irq-realtek.c:64-68 | each source packed into IRR1 reads back its own routing value, and the watchdog sources, which are not packed, are not routed |
| IrqRealtek.LowSourcesUnrouted | drivers/irqchip/irq-realtek.c:69-70 | no source below 18 is routed: IRR2 and IRR3 are zero |
| IrqRealtek.EnableIrq | drivers/irqchip/irq-realtek.c:78-90 | GIMR gets source hwirq's bit set, in one read-modify-write |
| IrqRealtek.DisableIrq | drivers/irqchip/irq-realtek.c:92-104 | GIMR gets source hwirq's bit cleared, in one read-modify-write |
| IrqRealtek.EnableSets | drivers/irqchip/irq-realtek.c:86 | enabling unmasks the source |
| IrqRealtek.EnableKeeps | drivers/irqchip/irq-realtek.c:86 | enabling leaves every other source's bit as it was |
| IrqRealtek.DisableClears | drivers/irqchip/irq-realtek.c:100 | disabling masks the source |
| IrqRealtek.DisableKeeps | drivers/irqchip/irq-realtek.c:100 | disabling leaves every other source's bit as it was |
| IrqRealtek.EnableDisableRestores | drivers/irqchip/irq-realtek.c:78-104 | disabling after enabling restores a source that was masked before |
| IrqRealtek.ChipCall | drivers/irqchip/irq-realtek.c:106-114 | each irq_chip callback is a GIMR read-modify-write that sets the bit for enable, unmask and eoi and clears it for disable, ack and mask |
| IrqRealtek.ChipCallEffect | drivers/irqchip/irq-realtek.c:106-114 | after a callback the source is unmasked exactly when the callback is enable, unmask or eoi, and every other source keeps its state |
| IrqRealtek.FfsFromFinds | drivers/irqchip/irq-realtek.c:134 | when the bits below k are clear, the bit search stops at a set bit with only clear bits below it |
| IrqRealtek.FfsLowest | drivers/irqchip/irq-realtek.c:134 | __ffs of a non-zero word is a set bit and every bit below it is clear |
| IrqRealtek.FfsUnique | drivers/irqchip/irq-realtek.c:134 | any set bit with only clear bits below it is __ffs |
| IrqRealtek.DispatchIrq | drivers/irqchip/irq-realtek.c:128-138 | the dispatcher's choice is the one the specification makes for GIMR & GISR |
| IrqRealtek.DispatchSpurious | drivers/irqchip/irq-realtek.c:132-137 | the interrupt is reported spurious exactly when no source is both unmasked and raised |
| IrqRealtek.DispatchHandles | drivers/irqchip/irq-realtek.c:130-134 | the source handled is both unmasked in GIMR and raised in GISR |
| IrqRealtek.PendingBoth | drivers/irqchip/irq-realtek.c:130 | a source pending in GIMR & GISR is both unmasked and raised |
| IrqRealtek.DispatchLowest | drivers/irqchip/irq-realtek.c:130-134 | no lower-numbered source is both unmasked and raised when a source is handled |
| IrqRealtek.PlatDispatchHighest | drivers/irqchip/irq-realtek.c:140-163 | the CPU line dispatched is one of IP2..IP7, pending, and no higher line is pending |
| IrqRealtek.PlatDispatchSpurious | drivers/irqchip/irq-realtek.c:140-166 | the CPU interrupt is spurious exactly when none of IP2..IP7 is pending and enabled |
| IrqRealtek.Init | drivers/irqchip/irq-realtek.c:168-200 | mapped, GIMR is zeroed, IRR0..IRR3 are loaded, the compare register cleared, all CPU lines enabled and timer 0 and UART 0 unmasked; unmapped, -ENXIO with nothing written |
| IrqRealtek.InitUnmasks | drivers/irqchip/irq-realtek.c:196-197 | after init exactly timer 0 and UART 0 are unmasked |
| IrqRealtek.InitOutcome | drivers/irqchip/irq-realtek.c:181-197 | after init the routing registers hold the packed cascade map and GIMR the two sources |
| IrqRtl8380.UnmaskIrq | drivers/irqchip/irq-rtl8380.c:22-34 | GIMR gets source hwirq's bit set, in one read-modify-write |
| IrqRtl8380.MaskIrq | drivers/irqchip/irq-rtl8380.c:36-48 | GIMR gets source hwirq's bit cleared, in one read-modify-write |
| IrqRtl8380.MaskAfterUnmask | drivers/irqchip/irq-rtl8380.c:22-48 | masking after unmasking is the same as masking alone: the last call decides |
| IrqRtl8380.DispatchIrq | drivers/irqchip/irq-rtl8380.c:68-85 | the lowest source both unmasked and pending is handled, or the interrupt is reported spurious |
| IrqRtl8380.Init | drivers/irqchip/irq-rtl8380.c:87-119 | mapped, GIMR is zeroed, IRR0..IRR3 are loaded and the compare register cleared; unmapped, -ENXIO with nothing written |
| IrqRtl8380.InitOutcome | drivers/irqchip/irq-rtl8380.c:102-113 | after init every source is masked and the routing registers hold the packed cascade map |
| ChipId.SocId | drivers/soc/realtek/realtek-chipid.c:28-31 | the SoC id is the model word's top half, a 16-bit value |
| ChipId.FamilyOfId | drivers/soc/realtek/realtek-chipid.c:33-36 | the family is the id rounded down to a multiple of 16 |
| ChipId.CodeShiftFormula | drivers/soc/realtek/realtek-chipid.c:38-41 | letter i is taken from bit 16 - 5 * (i + 1) upwards |
| ChipId.LetterCode | drivers/soc/realtek/realtek-chipid.c:38-41 | a letter code is a 5-bit value |
| ChipId.CodesFillLowHalf | drivers/soc/realtek/realtek-chipid.c:38-41 | the three letter codes and bit 0 make up the whole lower half of the model word, without overlap |
| ChipId.LetterCharRange | drivers/soc/realtek/realtek-chipid.c:43-49 | a code gives NUL exactly when it is 0 or above 26, and otherwise a capital letter |
| ChipId.LetterRoundTrip | drivers/soc/realtek/realtek-chipid.c:43-49 | every capital letter has a code, and decoding that code gives the letter back |
| ChipId.LetterCharInjective | drivers/soc/realtek/realtek-chipid.c:43-49 | two codes that give the same letter are the same code |
| ChipId.CStr | drivers/soc/realtek/realtek-chipid.c:156-157 | a C string is the part of a buffer before its first NUL, or the whole buffer when it holds none |
| ChipId.CStrTerminated | drivers/soc/realtek/realtek-chipid.c:144 | a NUL written after the letters ends the string there, whatever follows |
| ChipId.CStrWhole | drivers/soc/realtek/realtek-chipid.c:156-157 | a buffer without a NUL is read whole |
| ChipId.Hex4 | drivers/soc/realtek/realtek-chipid.c:152-157 | "%04x" of a 16-bit value has four digits |
| ChipId.Hex4RoundTrip | drivers/soc/realtek/realtek-chipid.c:152-157 | "%04x" loses nothing: the four digits parse back to the value |
| ChipId.Hex4NoNul | drivers/soc/realtek/realtek-chipid.c:152-157 | "%04x" never puts a NUL in the string |
| ChipId.Letters | drivers/soc/realtek/realtek-chipid.c:141-143 | the letters are the first max_letters decoded codes, in order |
| ChipId.FillLetters | drivers/soc/realtek/realtek-chipid.c:141-144 | the loop fills model_letters with the decoded letters and puts the NUL at index max_letters |
| ChipId.LettersShown | drivers/soc/realtek/realtek-chipid.c:141-157 | the soc_id string shows all the letters exactly when every code is a letter |
| ChipId.RevisionForms | drivers/soc/realtek/realtek-chipid.c:146-155 | revision 0 reads "0", revisions 1 to 26 their letter, each followed by "-ES" exactly for engineering samples; a revision above 26 prints NUL and leaves the string empty |
| ChipId.Rev8390IsThirdCode | drivers/soc/realtek/realtek-chipid.c:117-122 | on the RTL8390 the revision field is the third letter code, and the chip is an engineering sample exactly when it is non-zero |
| ChipId.Rev9300Shown | drivers/soc/realtek/realtek-chipid.c:123-129 | an RTL9300/9310 revision is below 16 and so always shown |
| ChipId.SocIdExtendsFamily | drivers/soc/realtek/realtek-chipid.c:152-157 | the soc_id string begins with the family string up to its last digit, which the family has as 0 |
| ChipId.BuildAttributes | drivers/soc/realtek/realtek-chipid.c:141-157 | the letters are filled and the family, revision and soc_id strings formatted as the specification gives |
| ChipId.DecodeMatched | drivers/soc/realtek/realtek-chipid.c:103-133 | the matched family's model registers are read and decoded as the specification gives |
| ChipId.Probe | drivers/soc/realtek/realtek-chipid.c:71-173 | the error code and attributes are the ones the specification of probe gives |
| ChipId.ProbeSucceeds | drivers/soc/realtek/realtek-chipid.c:71-173 | probe succeeds exactly for a known compatible whose model word carries the same family when the kernel services succeed, and the family string then names that family |
| ChipId.ProbeRefusesMismatch | drivers/soc/realtek/realtek-chipid.c:130-139 | an unknown family, or a model word of another family, is refused with -EINVAL and no strings |
| RtlChipId.Syscon.constructor | drivers/soc/realtek/realtek-rtl-chipid.c:130 | the syscon regmap holds the given registers, failing offsets and errno |
| RtlChipId.Syscon.Read | drivers/soc/realtek/realtek-rtl-chipid.c:147-148 | a read returns the register with 0, or a non-zero errno for a failing offset |
| RtlChipId.Syscon.SetBits | drivers/soc/realtek/realtek-rtl-chipid.c:91-92 | regmap_set_bits ORs the bits into the register, or returns the errno with nothing changed |
| RtlChipId.Rtl8380ReadModelInfo | drivers/soc/realtek/realtek-rtl-chipid.c:78-114 | the protect register is opened when the node gives its address; the model word is read at base + 4 and the revision at base + 0; the call fails exactly when one of those accesses fails |
| RtlChipId.ReadMatched | drivers/soc/realtek/realtek-rtl-chipid.c:139-165 | the family switch leaves the registers and the result the specification gives, and succeeds exactly when it decodes a model |
| RtlChipId.ReadModelInfo | drivers/soc/realtek/realtek-rtl-chipid.c:116-180 | the regmap lookup, the family's branch and the string formatting give the error and strings the specification gives |
| RtlChipId.Probe | drivers/soc/realtek/realtek-rtl-chipid.c:182-220 | the error code and attributes are the ones the specification of probe gives |
| RtlChipId.ModelInfoErrors | drivers/soc/realtek/realtek-rtl-chipid.c:139-165 | a failed RTL8380 read is reported as 1 through the bool helper, a failed RTL8390 read as the regmap's own errno, and the call succeeds exactly when strings are produced |
| RtlChipId.ProbeSucceeds | drivers/soc/realtek/realtek-rtl-chipid.c:182-220 | probe succeeds exactly when allocation, the match, the regmap lookup, every register access and the registration succeed for one of the four families |
| RtlChipId.ProbeCollapsesErrors | drivers/soc/realtek/realtek-rtl-chipid.c:204-208 | any failure of the model read, whatever its code, reaches the caller as -EINVAL |
| RtlChipId.AcceptsOtherFamily | drivers/soc/realtek/realtek-rtl-chipid.c:139-177 | there is no family check: an RTL8390 compatible over an RTL9300 model word is accepted and the family string says "RTL9300" |
| RtlChipId.AgreesWithChipId | drivers/soc/realtek/realtek-rtl-chipid.c:116-180 | where both chip-id drivers succeed on the same registers they register the same three strings |
| Board.DefaultBuffer | arch/mips/generic/board-realtek.c:13-14 | model_name is a 32-byte buffer |
| Board.DefaultNameReads | arch/mips/generic/board-realtek.c:14 | before any model word is read the name reads "Unknown Realtek" |
| Board.FamilyAgrees | arch/mips/generic/board-realtek.c:28-31 | the board's family is that of the chip-id drivers |
| Board.IntToCharUnchecked | arch/mips/generic/board-realtek.c:33-36 | codes 1 to 26 give the same letters as the chip-id drivers; with no range check code 0 gives '@', 27 gives '[' and 0xc0 wraps to NUL |
| Board.BoardLetters | arch/mips/generic/board-realtek.c:54 | model_letters has four bytes |
| Board.FillBoardLetters | arch/mips/generic/board-realtek.c:97-101 | the letter loop leaves model_letters as the specification gives: a slot with a non-zero code holds its character, the rest their stale bytes |
| Board.LettersWrittenWhenNonZero | arch/mips/generic/board-realtek.c:97-101 | a slot below max_letters is written exactly when its code is non-zero; every other slot, the would-be terminator included, keeps the stale stack byte |
| Board.LettersAgreeWithChipId | arch/mips/generic/board-realtek.c:97-101 | when every code is a letter and the stack byte after the letters happens to be NUL, the letters shown are those of the chip-id drivers |
| Board.SnprintfBuf | arch/mips/generic/board-realtek.c:106-109 | snprintf keeps the buffer's length |
| Board.SnprintfReads | arch/mips/generic/board-realtek.c:106-109 | the string left in the buffer is the output cut at size - 1 characters, and never longer |
| Board.Snprintf | arch/mips/generic/board-realtek.c:106-109 | model_name becomes the snprintf of the formatted text |
| Board.DecodeModel | arch/mips/generic/board-realtek.c:65-86 | the family switch reads the registers of the compatible's branch as the specification gives |
| Board.FormatName | arch/mips/generic/board-realtek.c:97-109 | the letters, the revision character and the format string give the specified text |
| Board.SocInfo.constructor | arch/mips/generic/board-realtek.c:11-14 | soc_info starts with family and id zero and model_name "Unknown Realtek" |
| Board.SocInfo.ReadSocInfo | arch/mips/generic/board-realtek.c:48-112 | without the switch-bus range, with an unknown compatible or with a family mismatch soc_info is untouched; otherwise family and id are stored and the name formatted |
| Board.SocInfo.Init | arch/mips/generic/board-realtek.c:134-154 | the SoC is read only when both the match and the switch bus are found, and the call returns true |
| Board.NameBounded | arch/mips/generic/board-realtek.c:106-109 | the name never exceeds 30 characters because snprintf is given one byte less than the buffer |
| Board.RevisionAgrees | arch/mips/generic/board-realtek.c:103-109 | a revision from 0 to 26 is printed as the chip-id drivers print it, without a NUL |
| Board.FormattedAgreesWithChipId | arch/mips/generic/board-realtek.c:97-109 | for all-letter codes, a revision up to 26 and a NUL after the letters, the text is the chip-id soc_id, " rev. " and the revision string, at most 20 characters |
| Board.SocIdAgrees | arch/mips/generic/board-realtek.c:106-108 | the part before " rev. " is the chip-id soc_id string, at most ten characters without a NUL |
| Board.NameAgreesWithChipId | arch/mips/generic/board-realtek.c:106-111 | the name registered is then that text, uncut |
| Prom.ModelFallback | arch/mips/realtek/prom.c:70-73 | the model is a 16-bit id: the RTL8380 register's when that holds an RTL833x/RTL838x id, otherwise the RTL8390 register's |
| Prom.NameFamilyClasses | arch/mips/realtek/prom.c:77-113 | each family is exactly its models; every other model is "DEFAULT" with family 0, and a known model's name is "RTL" and its id in hex |
| Prom.Rtl8330IsDefault | arch/mips/realtek/prom.c:70-113 | an RTL8330 passes the fallback guard but has no case, so it is named "DEFAULT" with family 0 |
| Prom.Strlcat | arch/mips/realtek/prom.c:54-55 | strlcat keeps the string shorter than the buffer |
| Prom.AppendArg | arch/mips/realtek/prom.c:52-56 | one step of the argument loop keeps the command line shorter than the buffer |
| Prom.CmdlineOf | arch/mips/realtek/prom.c:49-58 | the command line always fits its buffer |
| Prom.StrlcatFits | arch/mips/realtek/prom.c:54-55 | strlcat onto a cut string is the cut of the concatenation |
| Prom.CmdlineIsCutJoin | arch/mips/realtek/prom.c:49-58 | the command line is every taken argument followed by one space, cut to the buffer |
| Prom.DtbChoice | arch/mips/realtek/prom.c:117-122 | the device tree is the firmware's whenever it passes one, and the kernel panics only with neither that nor a built-in one |
| Prom.Platform.InitCmdline | arch/mips/realtek/prom.c:49-58 | the loop builds the command line the specification gives and changes nothing else |
| Prom.Platform.PromInit | arch/mips/realtek/prom.c:62-123 | the id is the chosen model, name and family come from the switch, get_system_type returns the name, and the command line and device tree are as specified |
| SpiFlash.LenConstants | drivers/mtd/spi-nor/controllers/rtl8380-spiflash.h:23-27 | the length mask clears exactly the two-bit length field, and LEN1 to LEN4 put 0 to 3 in it |
| SpiFlash.PrepSelects | drivers/mtd/spi-nor/controllers/rtl8380-spiflash.c:36-51 | spi_prep first deselects both chips with a zero length field; its result selects exactly the configured chip (its active-low select bit clear, the other set, CS set only for chip 1) with a one-byte length |
| SpiFlash.AddressPhase | drivers/mtd/spi-nor/controllers/rtl8380-spiflash.c:110-115 | 4-byte addressing sends the whole address in four bytes; otherwise three bytes are sent and a 24-bit address sits in them above a zero low byte |
| SpiFlash.PackBytes | drivers/mtd/spi-nor/controllers/rtl8380-spiflash.c:184 | packing four bytes into a word and reading them back most significant first gives the same four bytes |
| SpiFlash.Controller.constructor | drivers/mtd/spi-nor/controllers/rtl8380-spiflash.c:16-30 | a controller starts with the given chip select, address width and reply stream and an empty register trace |
| SpiFlash.Controller.WriteRegister | drivers/mtd/spi-nor/controllers/rtl8380-spiflash.c:24-30 | a register write appends exactly that write to the trace and consumes no reply |
| SpiFlash.Controller.ReadSfdr | drivers/mtd/spi-nor/controllers/rtl8380-spiflash.c:16-22 | reading SFDR returns the next reply and consumes it, writing nothing |
| SpiFlash.Controller.SpiPrep | drivers/mtd/spi-nor/controllers/rtl8380-spiflash.c:36-51 | spi_prep writes the deselect word and returns the chip's control word |
| SpiFlash.Controller.SendCmdAddr | drivers/mtd/spi-nor/controllers/rtl8380-spiflash.c:117-126 | the command phase and the address phase write exactly the command-address control and data words |
| SpiFlash.Controller.ReadBytes | drivers/mtd/spi-nor/controllers/rtl8380-spiflash.c:64-68 | len single-byte reads store the top byte of each of the next len replies, in order |
| SpiFlash.Controller.ReadReg | drivers/mtd/spi-nor/controllers/rtl8380-spiflash.c:53-71 | read_reg always succeeds, sends a one-byte command with the opcode in the top byte and stores the top bytes of the next len replies |
| SpiFlash.Controller.WriteReg | drivers/mtd/spi-nor/controllers/rtl8380-spiflash.c:73-100 | write_reg refuses more than two data bytes with -EINVAL after only the deselect; otherwise it sends opcode and data in one transfer of the matching length |
| SpiFlash.WriteRegEncodes | drivers/mtd/spi-nor/controllers/rtl8380-spiflash.c:80-97 | the transfer write_reg sends carries the opcode then the data bytes, most significant first, and its length field counts exactly those bytes |
| SpiFlash.ReadRegOneByte | drivers/mtd/spi-nor/controllers/rtl8380-spiflash.c:58-59 | masking in read_reg leaves spi_prep's word unchanged, so the command is one byte long |
| SpiFlash.Controller.SendDummies | drivers/mtd/spi-nor/controllers/rtl8380-spiflash.c:129-132 | the dummy-cycle loop sends n one-byte transfers of zero |
| SpiFlash.Controller.ReadWords | drivers/mtd/spi-nor/controllers/rtl8380-spiflash.c:134-141 | the 4-byte loop stores len / 4 whole replies, most significant byte first, and leaves len % 4 bytes |
| SpiFlash.Controller.Read | drivers/mtd/spi-nor/controllers/rtl8380-spiflash.c:102-153 | read returns len and stores len / 4 word replies then len % 4 top bytes; its writes are command, address, dummies and the two length switches |
| SpiFlash.Controller.WriteWords | drivers/mtd/spi-nor/controllers/rtl8380-spiflash.c:181-188 | the 4-byte loop sends each whole 4-byte chunk of buf as one packed word and stops with fewer than four bytes left |
| SpiFlash.Controller.WriteBytes | drivers/mtd/spi-nor/controllers/rtl8380-spiflash.c:190-197 | the tail loop sends each remaining byte alone in the top byte |
| SpiFlash.Controller.Write | drivers/mtd/spi-nor/controllers/rtl8380-spiflash.c:155-200 | write returns the byte count and sends command, address, the whole words and then the remaining bytes, consuming no reply |
| SpiFlash.Controller.Erase | drivers/mtd/spi-nor/controllers/rtl8380-spiflash.c:202-226 | erase succeeds after sending only the deselect, the erase command and the address |
| SpiFlash.EraseSameControl | drivers/mtd/spi-nor/controllers/rtl8380-spiflash.c:215-222 | erase leaves spi_prep's word unmasked yet sends the same control words read and write send |
| SpiFlash.TopByteOf | drivers/mtd/spi-nor/controllers/rtl8380-spiflash.c:193 | a byte sent alone is found again in the top byte of the word |
| SpiFlash.WordValuesAt | drivers/mtd/spi-nor/controllers/rtl8380-spiflash.c:183-188 | the j-th word written is bytes 4j to 4j+3 of buf, packed |
| SpiFlash.ByteValuesAt | drivers/mtd/spi-nor/controllers/rtl8380-spiflash.c:192-197 | the i-th single-byte write carries byte k+i of buf in its top byte |
| SpiFlash.WordChunk | drivers/mtd/spi-nor/controllers/rtl8380-spiflash.c:183-188 | each word write carries exactly its 4-byte chunk of buf, in order |
| SpiFlash.ByteChunk | drivers/mtd/spi-nor/controllers/rtl8380-spiflash.c:192-197 | each single-byte write carries exactly its byte of buf |
| SpiFlash.WordBytesMatch | drivers/mtd/spi-nor/controllers/rtl8380-spiflash.c:136-141 | n word reads store exactly the bytes each read word carries, four at a time and in order |
| SpiFlash.TopBytesMatch | drivers/mtd/spi-nor/controllers/rtl8380-spiflash.c:145-150 | m single-byte reads store exactly the top byte of each read, in order |
| SpiFlash.WordBytesOfPacked | drivers/mtd/spi-nor/controllers/rtl8380-spiflash.c:136-141 | word reads of the replies that the word writes of buf sent give those bytes of buf back |
| SpiFlash.TopBytesOfShifted | drivers/mtd/spi-nor/controllers/rtl8380-spiflash.c:145-150 | single-byte reads of the replies that the single-byte writes of buf sent give those bytes back |
| SpiFlash.WriteReadRoundTrip | drivers/mtd/spi-nor/controllers/rtl8380-spiflash.c:102-200 | reading back what write sent for buf yields exactly buf, whatever the length modulo 4 |
| SpiFlash.RoundTripSplit | drivers/mtd/spi-nor/controllers/rtl8380-spiflash.c:134-152 | the round trip holds for any split of the length into whole words and single bytes |
| Mdio.Mutex.constructor | drivers/net/ethernet/realtek/rtl-mdio.c:44 | smi_lock starts unlocked |
| Mdio.Mutex.Lock | drivers/net/ethernet/realtek/rtl-mdio.c:44 | taking the lock leaves it held |
| Mdio.Mutex.Unlock | drivers/net/ethernet/realtek/rtl-mdio.c:44 | releasing the lock leaves it free |
| Mdio.SmiWaitOp | drivers/net/ethernet/realtek/rtl-mdio.c:66-74 | the wait reports a timeout exactly when the busy bit read set on every one of the timeout polls; otherwise it stops at the first poll that read clear, never after more than timeout polls |
| Mdio.SpinUntilClear | drivers/net/ethernet/realtek/rtl-mdio.c:151-161 | the 839x wait stops at the first poll where bit 0 reads clear |
| Mdio.SmiCommandBits | drivers/net/ethernet/realtek/rtl-mdio.c:89-93 | the 838x command word leaves the start bit clear, sets the write flag exactly for a write and keeps the park-page and type bits of CTRL_1; the second write sets the start bit |
| Mdio.Low16 | drivers/net/ethernet/realtek/rtl-mdio.c:98 | an accessor returns a value between 0 and 0xffff |
| Mdio.Rtl838xRead | drivers/net/ethernet/realtek/rtl-mdio.c:76-109 | 838x read returns -EIO exactly when either wait times out, writes nothing if the first one does, and otherwise returns the low half of the PHY's reply; the lock is released on every path |
| Mdio.DataWordFields | drivers/net/ethernet/realtek/rtl-mdio.c:122-125 | the 838x data word carries the value in its top half and keeps the low half of CTRL_2 |
| Mdio.Rtl838xWrite | drivers/net/ethernet/realtek/rtl-mdio.c:111-142 | 838x write returns -EIO exactly when either wait times out and 0 otherwise, writes nothing if the first wait times out and otherwise sends id, data and command; the lock is released on every path |
| Mdio.Rtl839xCommandsAsWritten | drivers/net/ethernet/realtek/rtl-mdio.c:156-187 | neither 839x command sets the CMD bit that the wait polls, both set FAIL, and the write is encoded as a read of register regnum or 8 |
| Mdio.Rtl839xWriteOfRegisterZero | drivers/net/ethernet/realtek/rtl-mdio.c:187 | a write of PHY register 0 is sent as command 0x102, which names register 8 |
| Mdio.IntendedCmdEncodes | drivers/net/ethernet/realtek/rtl-mdio.c:23-31 | the intended command starts the access, sets RWOP exactly for a write, never sets FAIL and names regnum |
| Mdio.Rtl839xRead | drivers/net/ethernet/realtek/rtl-mdio.c:144-168 | 839x read writes the PHY id, the extended page and the read command, waits, and returns the low half of what the PHY left in the data register; the lock is released |
| Mdio.PortMaskSelects | drivers/net/ethernet/realtek/rtl-mdio.c:178-180 | the two port-mask registers together select exactly the PHY's port when it is below 64, and are both 0 for a higher port |
| Mdio.Rtl839xWrite | drivers/net/ethernet/realtek/rtl-mdio.c:170-196 | 839x write always returns 0; it clears both port masks, sets the PHY's bit, the data word, the page and the command, and releases the lock |
| Mdio.SocIdOf | drivers/net/ethernet/realtek/rtl-mdio.c:221 | the soc id is computed in 32-bit unsigned arithmetic |
| Mdio.Probe | drivers/net/ethernet/realtek/rtl-mdio.c:198-234 | probe fails with -ENOMEM and no accessors when the bus cannot be allocated, and otherwise returns what registering the bus returns |
| Mdio.ProbeSelectsNoAccessors | drivers/net/ethernet/realtek/rtl-mdio.c:221-240 | as written, probe installs no accessors for either compatible, nor for a missing match |
| Mdio.IntendedProbeSelects | drivers/net/ethernet/realtek/rtl-mdio.c:226-240 | with the intended soc id, the RTL8382 compatible gets the 838x accessors, the RTL8392 one gets the 839x accessors, and nothing else gets any |

## Left out

Kernel plumbing and environment:

- Driver registration, the netdev and NAPI set-up, phylink and ethtool are not modelled. Also left out: `request_irq`, `soc_device_register`, `mfd_add_devices`, `spi_nor_scan` and MTD registration, and the MDIO bus registration. These are calls into kernel code outside these drivers. Where their result decides a path (an allocation or registration error), it is an input.
- `rtl83xx_eth_open`, `rtl83xx_eth_stop` and `rtl83xx_eth_tx_timeout` are not modelled, and neither is the phylink validation of link modes. They only call the modelled family operations in sequence or fill kernel bitmaps.
- Spinlocks, memory barriers and the interleaving of the interrupt handler with NAPI are not modelled. Each operation is one sequential step. The MDIO `smi_lock` mutex is a `Mdio.Mutex` with a `held` flag.
- `mdelay`, `udelay` and `cpu_relax` are not modelled, and neither are `pr_info`, `dev_warn` and the early console. They have no effect on state.
- skb allocation, `eth_type_trans` and `netif_receive_skb` are not modelled: a delivered frame is its byte sequence. A failing `skb_padto` is an input (`padFails`). In `rtl83xx_hw_receive` the reserve is made before the allocation is checked, so a failed allocation crashes before the check. That path is not modelled.
- `CPHYSADDR` and `KSEG1ADDR` translation and real DMA memory are not modelled. Addresses are byte offsets into the ring set and the buffer spaces.
- The network statistics are unbounded counters. The `unsigned long` wrap-around of `dev->stats` is not modelled.
- The static transmit counter `num` in `rtl83xx_eth_tx` is not modelled, because nothing reads it.

Hardware waits and effects:

- Some hardware waits have no timeout: `run_table_cmd`, `reset_nic`, the L2 flush, the SPI RDY waits and the RTL839x MDIO waits. They are modelled as completing. For the MDIO waits, the poll at which the busy bit reads clear is a parameter (`clear`).
- `Rx.RefreshCounters` writes each RX ring counter back with the value it holds. On the model's plain register map that write changes nothing. What the switch does when a counter is written (rtl83xx-eth.c:409-413, commented only as updating each ring's count) is not modelled.
- The NIC reset reinitialises the DMA interrupt mask. The value it leaves is an input (`maskAfter`). The notify bits saved across it come from the `Soc.Layout` record.
- What the L2 flush does to the switch's address table is not modelled. Only the command and its completion are.
- The table memory is a map. What the switch moves between it and the data registers is a `Tables.TableHw` step.
- Rtl839x.InitMac: models only the multicast port-mask table entry (rtl839x-eth.c:30-35). These stores of `rtl839x_init_mac` are not modelled, because their register addresses and field positions are defined in `rtl839x-eth.h`, which is not part of this model:
  - the packet buffer size selection in MAC_EFUSE_CTRL (rtl839x-eth.c:20);
  - the MAC_GLB_CTRL word (:24-28);
  - the scheduler settings (:37-42);
  - the 1G, 10G and protocol storm-control settings (:44-54);
  - the 16 ACL policer `METER_LB_TICK_TKN_CTRL` stores (:57-62);
  - the two ingress-bandwidth stores (:64-70);
  - the 100M, 500M and 1G EEE RX timers (:72-89).
  The switch-queue reset written to RST_GLB_CTRL (:22) is also not modelled, for a second reason: it resets hardware queues, which a store in a register map cannot express.
- `rtl838x-eth.h` and `rtl839x-eth.h` are not part of this model. Their register addresses and masks are the fields of `Soc.Layout`.

Device tree, boot environment and probe details:

- Probe reads the MAC address from the device tree or falls back to a random one. The device-tree lookups and the random MAC are not modelled. `get_mac_addr` copies 8 bytes from offset 2 of an 8-byte array, which is undefined behaviour, and is not modelled.
- The register dump loop of the `realtek-eio.c` probe is not modelled, because it only logs.
- Installing the chained handlers (interrupts 2 and 5 in irq-realtek.c, 2 to 5 in irq-rtl8380.c) and creating the interrupt domain are not modelled. The CP0 status and compare registers are the `IrqRealtek.Cp0` value `Init` returns.
- Which MIPS CPU line a routing value selects is fixed by the hardware and stated nowhere in the drivers: the CPU-line names of irq-realtek.c:24-29 do not match the cascade values of irq-realtek.c:39-52 one to one. The model therefore states the routing values only (`IrqRealtek.Route`, `Irr0Routes`, `Irr1Routes`) and makes no claim about which CPU line, or which chained handler, a source's interrupt arrives on.
- `realtek-chipid.c` never checks the result of its regmap reads. The model reads the registers from the map and has no failing read. On the RTL8380 `is_engineering_sample` is never set. `ChipId`, `RtlChipId` and `Board` take that indeterminate flag as the input `es8380`.
- The `machine` string of `realtek-chipid.c` and `realtek-rtl-chipid.c` is not modelled. Neither are the failure of `kasprintf` and the `data` pointer of the attributes. These are device-tree and allocation plumbing.
- `board-realtek.c` leaves `model_letters` unterminated on the stack. Its four bytes as found are the input `stack`, and the lemmas that relate the name to `ChipId` require the byte after the letters to be NUL. When none of the four stale bytes is NUL, `%s` in the source reads past the array, while `Board.Formatted` stops after the four bytes; that out-of-bounds read is not modelled.
- In `prom.c`, `device_tree_init`, `prom_free_prom_memory` and the early printk set-up are not modelled. `COMMAND_LINE_SIZE` is 4096, the MIPS value: asm/setup.h is not part of this model. `RTL8380_SWITCH_BASE` (0xBB000000) and the model-register offsets +0x00D4 and +0x0FF0 are those of arch/mips/include/asm/mach-realtek/mach-realtek.h:44-46, which prom.c includes. A missing device tree is the `Prom.Dtb` value `Panic`.
- `rtl8380_spi_nor_scan` sets big-endian read and write byte order in SFCR (rtl8380-spiflash.c:246-248). That read-modify-write is not modelled. The model packs and unpacks SFDR most significant byte first, which relies on that setting.
- A read of SFDR beyond the replies given reads 0. The controller's replies are the input sequence `rx`.
- The 838x MDIO accessors use the uninitialised locals `reg` and `page`. Their indeterminate values are inputs of `Mdio.Rtl838xRead` and `Mdio.Rtl838xWrite`. Bus names and the device-tree node are not modelled. MDIO registers are addressed as offsets from the fixed base 0xbb000000. After an RTL838x command, the hardware clears the start bit of SMI_ACCESS_PHY_CTRL_1 when it finishes. The model does not clear it: the start bit stays set in `rf.regs`, and the wait reads the `busy` inputs instead.

Weaker contracts and narrower inputs:

- Tx.EthTx: requires a frame of at least four bytes under DSA and a padded frame that fits in `tx_space`. The source checks neither; a shorter frame reads before the buffer, and a longer one overruns the space.
- Rx.HwReceive: requires every RX header to hold length 0 or at least 4, with its buffer inside `rx_space`, as the switch leaves it. A shorter non-zero length would make the source's `len - 4` negative.
- Mdio.Rtl838xWrite: requires a PHY address below 32, as the MDIO core passes it. For 32 and above, `BIT(mii_id)` is undefined in C.
- Mdio.Rtl839xCommandsAsWritten: stated for register numbers below 32, as the MDIO core passes them.
- Negative PHY addresses and register numbers are not modelled: the accessors take them as unsigned words.

## Findings

| source | as written | input that shows it | evidently intended | confidence | as-written member | corrected member |
|---|---|---|---|---|---|---|
| drivers/net/ethernet/realtek/rtl838x-eth.c:296-297 | `dma_irq(…, false)` does `val &= rxtx`, which clears every bit except the RX/TX interrupt enables | any mask after `dma_irq(…, true)`: disabling leaves exactly the RX/TX bits set | `val &= ~rxtx`, which turns the RX/TX interrupts off and keeps the rest | not executed | Soc.DmaIrqDisableKeepsEnabled | Soc.DmaIrqIntendedDisables |
| drivers/net/ethernet/realtek/rtl-mdio.c:156-187 | the RTL839x commands use `BIT(_..._CMD)` = `BIT(BIT(0))` = bit 1 (FAIL), never bit 0 (CMD); the write's `BIT(_..._RWOP)` = bit 8, a register-number bit | a write of PHY register 0 sends 0x102, a read of register 8 | `regnum << 5 \| _..._CMD`, plus `_..._RWOP` for a write | not executed | Mdio.Rtl839xWriteOfRegisterZero | Mdio.IntendedCmdEncodes |
| drivers/net/ethernet/realtek/rtl-mdio.c:221-232 | probe computes the soc id as the match data times 0xfff0 | match data 0x8382 gives 0x8379c7e0, not 0x8380, so no accessors are installed | the match data ANDed with 0xfff0 | not executed | Mdio.ProbeSelectsNoAccessors | Mdio.IntendedProbeSelects |

The operations of the model keep the code's behaviour as written. For each row, the corrected definition (`Soc.DmaIrqIntended`, `Mdio.IntendedCmd`, `Mdio.IntendedSocId`) is proved to have the intended property. For `dma_irq`, `Soc.DmaIrqIntendedAgrees` shows that the correction changes nothing when interrupts are enabled.
