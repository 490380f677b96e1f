/** The job a client submits, as the main server stores it (main_server.h, Job_t). */
module Jobs {
  import opened Words

  /** The part of a job that comes from the client. `port` and `ipaddr` are kept
      exactly as they arrive; the two paths are the fixed buffers of the struct. */
  datatype Payload = Payload(port: uint16, ipaddr: uint32, execFile: seq<byte>, workingDir: seq<byte>)

  /** `addr` stands for the pointer: it names the allocation, so two jobs are the
      same object only when their addresses agree. `id` is the 16-bit job id. */
  datatype Job = Job(addr: nat, id: uint16, payload: Payload)
}
