/** The uncached memory of the streamer, as word offsets, and the DMA program that adc_dma_init puts there. */
module Layout {
  import opened Words

  // ADC_DMA_DATA: twelve 8-word control blocks, constants, then the areas that the DMA fills.
  const NUM_CBS := 12
  const CB_WORDS := 8
  const SAMP_SIZE := 96
  const PWM_VAL := 97
  const ADC_CSD := 98
  const TXD := 99
  const USECS := 102
  const STATES := 104
  const RXD1 := 106
  const RXD2 := 1130
  const DATA_WORDS := 2154

  const MAX_SAMPS := 1024

  // Bus addresses of the peripheral registers: base of the mapped block plus the register offset.
  const PERIPH_BASE := 0x7E00_0000
  const PERIPH_END := 0x7F00_0000
  const USEC_TIME := 0x7E00_3004
  const SPI_CS := 0x7E20_4000
  const SPI_FIFO := 0x7E20_4004
  const SPI_DLEN := 0x7E20_400C
  const PWM_FIF1 := 0x7E20_C018

  // Transfer information bits.
  const WAIT_RESP := 0x8
  const DEST_INC := 0x10
  const DEST_DREQ := 0x40
  const SRCE_INC := 0x100
  const SRCE_DREQ := 0x400
  const PWM_TI := DEST_DREQ + 5 * 0x1_0000 + WAIT_RESP
  const SPI_RX_TI := SRCE_DREQ + 7 * 0x1_0000 + WAIT_RESP + DEST_INC
  const SPI_TX_TI := DEST_DREQ + 6 * 0x1_0000 + WAIT_RESP + SRCE_INC

  predicate DestInc(ti: word) { ti / DEST_INC % 2 == 1 }

  predicate SrceInc(ti: word) { ti / SRCE_INC % 2 == 1 }

  // SPI control values: transfer active, DMA enable, chip enable 0.
  const SPI_ACTIVATE := 0x80 + 0x100
  const DUMMY_TX := 0xd0

  /** VC_MEM_SIZE: one page for the control data, then two full sample buffers. */
  const PAGE_SIZE := 0x1000
  const VC_MEM_SIZE := PAGE_SIZE + 2 * (4 * MAX_SAMPS)
  const VC_MEM_WORDS := VC_MEM_SIZE / 4

  /** What the command line and the memory mapping hand to adc_dma_init. */
  datatype Config = Config(virt: word, bus: word, nsamp: nat, single: bool, pwmRange: word, chans: int)

  /** The mailbox gives page-aligned, nonzero bus memory away from the peripherals; main gives 1..1024 samples. */
  ghost predicate ValidConfig(cfg: Config) {
    && 1 <= cfg.nsamp <= MAX_SAMPS
    && cfg.virt + VC_MEM_SIZE <= WORD_SPAN
    && cfg.bus != 0 && cfg.bus % PAGE_SIZE == 0
    && cfg.bus + VC_MEM_SIZE <= WORD_SPAN
    && (cfg.bus + VC_MEM_SIZE <= PERIPH_BASE || PERIPH_END <= cfg.bus)
  }

  /** MEM_BUS_ADDR: unsigned 32-bit arithmetic from a virtual to a bus address. */
  function MemBusAddr(cfg: Config, a: word): word {
    (a - cfg.virt + cfg.bus) % WORD_SPAN
  }

  /** Bus address of the word at offset w of the structure. */
  function Addr(cfg: Config, w: nat): word
    requires ValidConfig(cfg) && w < VC_MEM_WORDS
  {
    cfg.bus + 4 * w
  }

  /** The macro maps a field of the structure to its bus address, whichever of the two maps is higher. */
  lemma BusMapping(cfg: Config, w: nat)
    requires ValidConfig(cfg) && w < VC_MEM_WORDS
    ensures MemBusAddr(cfg, cfg.virt + 4 * w) == Addr(cfg, w)
  {
  }

  /** A control block as it lies in memory. */
  datatype CB = CB(ti: word, src: word, dst: word, len: word, stride: word, next: word, debug: word, unused: word)

  function CbAt(mem: seq<word>, i: nat): CB
    requires 8 * i + 8 <= |mem|
  {
    CB(mem[8 * i], mem[8 * i + 1], mem[8 * i + 2], mem[8 * i + 3],
       mem[8 * i + 4], mem[8 * i + 5], mem[8 * i + 6], mem[8 * i + 7])
  }

  function CbAddr(cfg: Config, i: nat): word
    requires ValidConfig(cfg) && i < NUM_CBS
  {
    Addr(cfg, 8 * i)
  }

  function Usecs(b: nat): nat { USECS + b }

  function States(b: nat): nat { STATES + b }

  function Rxd(b: nat): nat { if b == 0 then RXD1 else RXD2 }

  /** The control blocks of the program: 0-5 receive into two buffers, 6 transmits, 7-9 trigger the SPI. */
  function Cb(cfg: Config, i: nat): CB
    requires ValidConfig(cfg) && i < NUM_CBS
  {
    match i
    case 0 => CB(SPI_RX_TI, USEC_TIME, Addr(cfg, USECS), 4, 0, CbAddr(cfg, 1), 0, 0)
    case 1 => CB(SPI_RX_TI, SPI_FIFO, Addr(cfg, RXD1), 4 * cfg.nsamp, 0, CbAddr(cfg, 2), 0, 0)
    case 2 => CB(SPI_RX_TI, SPI_CS, Addr(cfg, STATES), 4, 0, if cfg.single then 0 else CbAddr(cfg, 3), 0, 0)
    case 3 => CB(SPI_RX_TI, USEC_TIME, Addr(cfg, USECS + 1), 4, 0, CbAddr(cfg, 4), 0, 0)
    case 4 => CB(SPI_RX_TI, SPI_FIFO, Addr(cfg, RXD2), 4 * cfg.nsamp, 0, CbAddr(cfg, 5), 0, 0)
    case 5 => CB(SPI_RX_TI, SPI_CS, Addr(cfg, STATES + 1), 4, 0, CbAddr(cfg, 0), 0, 0)
    case 6 => CB(SPI_TX_TI, Addr(cfg, TXD), SPI_FIFO, 4, 0, CbAddr(cfg, 6), 0, 0)
    case 7 => CB(PWM_TI, Addr(cfg, PWM_VAL), PWM_FIF1, 4, 0, CbAddr(cfg, 8), 0, 0)
    case 8 => CB(PWM_TI, Addr(cfg, SAMP_SIZE), SPI_DLEN, 4, 0, CbAddr(cfg, 9), 0, 0)
    case 9 => CB(PWM_TI, Addr(cfg, ADC_CSD), SPI_CS, 4, 0, CbAddr(cfg, 7), 0, 0)
    case _ => CB(0, 0, 0, 0, 0, 0, 0, 0)
  }

  /** pwm_val = pwm_range - PWM_VALUE, in unsigned arithmetic. */
  function PwmVal(cfg: Config): word { (cfg.pwmRange - 2) % WORD_SPAN }

  /** The six constant words after the control blocks. */
  function Constants(cfg: Config): seq<word> {
    [2, PwmVal(cfg), SPI_ACTIVATE, DUMMY_TX, if cfg.chans > 1 then 0xf0 else DUMMY_TX, 0x4000]
  }

  /** What the controller reads from a transfer information word (section 4.2.1.2 of the BCM2835 ARM Peripherals
      datasheet): the peripheral that paces the transfer, whether it paces the source or the destination, which of
      the two addresses is incremented, and whether writes are waited for. */
  datatype Transfer = Transfer(peripheral: nat, srceDreq: bool, destDreq: bool, srceInc: bool, destInc: bool,
                               wait: bool)

  function Decode(ti: word): Transfer {
    Transfer(ti / 0x1_0000 % 0x20, ti / 0x400 % 2 == 1, ti / 0x40 % 2 == 1, ti / 0x100 % 2 == 1, ti / 0x10 % 2 == 1,
             ti / 8 % 2 == 1)
  }

  /** The receive blocks are paced by request 7, SPI receive, at their source, the transmit block by request 6, SPI
      transmit, and the trigger blocks by request 5, PWM, at their destinations; every write is waited for. */
  lemma PacedBlocks(cfg: Config, i: nat)
    requires ValidConfig(cfg) && i < 10
    ensures Decode(Cb(cfg, i).ti) ==
            if i < 6 then Transfer(7, true, false, false, true, true)
            else if i == 6 then Transfer(6, false, true, true, false, true)
            else Transfer(5, false, true, false, false, true)
    ensures Cb(cfg, i).stride == Cb(cfg, i).debug == Cb(cfg, i).unused == 0
  {
    if i < 6 {} else {}
  }

  /** The last two control blocks are left empty. */
  lemma SpareBlocks(cfg: Config, i: nat)
    requires ValidConfig(cfg) && 10 <= i < NUM_CBS
    ensures Cb(cfg, i) == CB(0, 0, 0, 0, 0, 0, 0, 0)
  {
  }
}
