/** What several of the programs share: four servers, a hundred polling rounds, and the
    triple of usages that travels from a monitor to the distributor. */
module Common {

  const SERVERS_NUM := 4
  const ROUNDS := 100

  datatype Option<+T> = None | Some(value: T)

  /** CPU, memory and I/O usage in percent. */
  datatype Usage = Usage(cpu: real, mem: real, io: real)

  const ZERO := Usage(0.0, 0.0, 0.0)
}
