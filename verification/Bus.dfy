/** The system bus, whose receivers clear what they read, and the controllers on it. */
module Bus {
  import opened Types
  import opened Core

  datatype Signal = Clock | Interrupt | PowerOn | PowerOff | MemoryRead | MemoryWrite | IoRead | IoWrite

  const TRANSACTIONS: set<Signal> := {MemoryRead, MemoryWrite, IoRead, IoWrite}

  class DataBus {
    var data: byte

    constructor ()
      ensures data == 0
    {
      data := 0;
    }

    method Send(v: byte)
      modifies this
      ensures data == v
    {
      data := v;
    }

    method Receive() returns (v: byte)
      modifies this
      ensures v == old(data) && data == 0
    {
      v := data;
      data := 0;
    }
  }

  class AddressBus {
    var data: word

    constructor ()
      ensures data == 0
    {
      data := 0;
    }

    method Send(v: word)
      modifies this
      ensures data == v
    {
      data := v;
    }

    method Receive() returns (v: word)
      modifies this
      ensures v == old(data) && data == 0
    {
      v := data;
      data := 0;
    }
  }

  class ControlBus {
    var lanes: set<Signal>

    constructor ()
      ensures lanes == {}
    {
      lanes := {};
    }

    method Send(signal: Signal)
      modifies this
      ensures lanes == old(lanes) + {signal}
    {
      lanes := lanes + {signal};
    }

    method Receive(signal: Signal) returns (up: bool)
      modifies this
      ensures up == (signal in old(lanes)) && lanes == old(lanes) - {signal}
    {
      up := signal in lanes;
      lanes := lanes - {signal};
    }
  }

  /** 64K of random access memory. */
  class MemoryController {
    const memory: array<byte>

    constructor ()
      ensures memory.Length == 0x10000 && fresh(memory)
      ensures forall k :: 0 <= k < 0x10000 ==> memory[k] == 0
    {
      memory := new byte[0x10000](_ => 0);
    }

    method Read(addr: word) returns (v: byte)
      requires memory.Length == 0x10000
      ensures v == memory[addr]
    {
      v := memory[addr];
    }

    method Write(addr: word, v: byte)
      requires memory.Length == 0x10000
      modifies memory
      ensures memory[..] == old(memory[..])[addr := v]
    {
      memory[addr] := v;
    }

    method Clear()
      requires memory.Length == 0x10000
      modifies memory
      ensures forall k :: 0 <= k < memory.Length ==> memory[k] == 0
    {
      forall k | 0 <= k < memory.Length {
        memory[k] := 0;
      }
    }
  }

  /** Any deterministic device: what a port returns may depend on everything read and written before. */
  class IoController {
    const device: (seq<IoEvent>, word) -> byte
    var log: seq<IoEvent>

    constructor (device: (seq<IoEvent>, word) -> byte)
      ensures this.device == device && log == []
    {
      this.device := device;
      log := [];
    }

    method Read(port: word) returns (v: byte)
      modifies this
      ensures v == device(old(log), port) && log == old(log) + [Input(port, v)]
    {
      v := device(log, port);
      log := log + [Input(port, v)];
    }

    method Write(port: word, v: byte)
      modifies this
      ensures log == old(log) + [Output(port, v)]
    {
      log := log + [Output(port, v)];
    }
  }

  /** What every input port would return now. */
  function Answers(device: (seq<IoEvent>, word) -> byte, log: seq<IoEvent>): word -> byte {
    port => device(log, port)
  }

  /** The buses together with the controllers that serve them. */
  class Board {
    const addressBus: AddressBus
    const dataBus: DataBus
    const controlBus: ControlBus
    const memory: MemoryController
    const io: IoController

    constructor (memory: MemoryController, io: IoController)
      ensures this.memory == memory && this.io == io
      ensures fresh(addressBus) && fresh(dataBus) && fresh(controlBus)
      ensures Quiet() && controlBus.lanes == {}
    {
      addressBus := new AddressBus();
      dataBus := new DataBus();
      controlBus := new ControlBus();
      this.memory := memory;
      this.io := io;
    }

    predicate Valid() {
      memory.memory.Length == 0x10000
    }

    ghost function Contents(): Mem
      requires Valid()
      reads memory.memory
    {
      memory.memory[..]
    }

    function Ports(): word -> byte
      reads io
    {
      Answers(io.device, io.log)
    }

    ghost function Lanes(): set<Signal>
      reads controlBus
    {
      controlBus.lanes
    }

    /** No value is left on a bus and no transaction is up. */
    ghost predicate Quiet()
      reads addressBus, dataBus, controlBus
    {
      addressBus.data == 0 && dataBus.data == 0 && controlBus.lanes !! TRANSACTIONS
    }

    ghost function Frame(): set<object> {
      {addressBus, dataBus, controlBus, memory.memory, io}
    }

    /** The lane of `signal` is up and no other transaction lane is. */
    ghost predicate Announces(signal: Signal)
      reads controlBus
    {
      signal in Lanes() && forall t :: t in TRANSACTIONS && t in Lanes() ==> t == signal
    }

    /** Serve whatever transaction the control bus announces, clearing lane and buses as they are read. */
    method ProcessControllers()
      requires Valid()
      modifies Frame()
      ensures Lanes() == old(Lanes()) - TRANSACTIONS
      ensures old(Announces(MemoryRead)) ==>
                addressBus.data == 0 && dataBus.data == old(Contents()[addressBus.data])
                && Contents() == old(Contents()) && io.log == old(io.log)
      ensures old(Announces(MemoryWrite)) ==>
                addressBus.data == 0 && dataBus.data == 0
                && Contents() == old(Contents()[addressBus.data := dataBus.data]) && io.log == old(io.log)
      ensures old(Announces(IoRead)) ==>
                addressBus.data == 0 && dataBus.data == old(Ports()(addressBus.data)) && Contents() == old(Contents())
                && io.log == old(io.log + [Input(addressBus.data, Ports()(addressBus.data))])
      ensures old(Announces(IoWrite)) ==>
                addressBus.data == 0 && dataBus.data == 0 && Contents() == old(Contents())
                && io.log == old(io.log + [Output(addressBus.data, dataBus.data)])
    {
      ServeMemory();
      ServeIo();
    }

    method ServeMemory()
      requires Valid()
      modifies addressBus, dataBus, controlBus, memory.memory
      ensures Lanes() == old(Lanes()) - {MemoryRead, MemoryWrite}
      ensures MemoryRead !in old(Lanes()) && MemoryWrite !in old(Lanes()) ==>
                addressBus.data == old(addressBus.data) && dataBus.data == old(dataBus.data)
                && Contents() == old(Contents())
      ensures old(Announces(MemoryRead)) ==>
                addressBus.data == 0 && dataBus.data == old(Contents()[addressBus.data])
                && Contents() == old(Contents())
      ensures old(Announces(MemoryWrite)) ==>
                addressBus.data == 0 && dataBus.data == 0
                && Contents() == old(Contents()[addressBus.data := dataBus.data])
    {
      var up := controlBus.Receive(MemoryRead);
      if up {
        var addr := addressBus.Receive();
        var v := memory.Read(addr);
        dataBus.Send(v);
      }
      up := controlBus.Receive(MemoryWrite);
      if up {
        var addr := addressBus.Receive();
        var v := dataBus.Receive();
        memory.Write(addr, v);
      }
    }

    method ServeIo()
      requires Valid()
      modifies addressBus, dataBus, controlBus, io
      ensures Lanes() == old(Lanes()) - {IoRead, IoWrite}
      ensures IoRead !in old(Lanes()) && IoWrite !in old(Lanes()) ==>
                addressBus.data == old(addressBus.data) && dataBus.data == old(dataBus.data) && io.log == old(io.log)
      ensures old(Announces(IoRead)) ==>
                addressBus.data == 0 && dataBus.data == old(Ports()(addressBus.data))
                && io.log == old(io.log + [Input(addressBus.data, Ports()(addressBus.data))])
      ensures old(Announces(IoWrite)) ==>
                addressBus.data == 0 && dataBus.data == 0
                && io.log == old(io.log + [Output(addressBus.data, dataBus.data)])
    {
      var up := controlBus.Receive(IoRead);
      if up {
        var port := addressBus.Receive();
        var v := io.Read(port);
        dataBus.Send(v);
      }
      up := controlBus.Receive(IoWrite);
      if up {
        var port := addressBus.Receive();
        var v := dataBus.Receive();
        io.Write(port, v);
      }
    }
  }
}
