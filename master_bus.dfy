/** The bus as a bus master (the CPU or the OAM DMA unit) sees it through
    `IBusMasterClient`: a data latch `Value`, `Read`/`Write` at a 16-bit
    address, and the ownership flag. The devices behind the address
    decoder are flattened into one 64 KiB memory. */
module MasterBus {
  import opened Bytes

  type Memory = m: seq<Byte> | |m| == 0x1_0000 witness seq(0x1_0000, _ => 0)

  datatype FlatBus = FlatBus(mem: Memory, value: Byte, used: bool) {
    /** `Read(address)`: latch the byte at `address` into `Value`. */
    function Read(address: Word): FlatBus { this.(value := mem[address]) }

    /** `Write(address)`: store the latched `Value` at `address`. */
    function Write(address: Word): FlatBus { this.(mem := mem[address := value]) }

    /** `Value = v`. */
    function Latch(v: Byte): FlatBus { this.(value := v) }

    function Acquire(): FlatBus { this.(used := true) }
    function Release(): FlatBus { this.(used := false) }
    predicate TryAcquire() { !used }
  }

  /** A store followed by a load at the same address gives the stored byte
      back; a store changes no other address. */
  lemma StoreLoad(b: FlatBus, v: Byte, a: Word, a2: Word)
    ensures b.Latch(v).Write(a).Read(a2).value == if a2 == a then v else b.mem[a2]
  {
  }
}
