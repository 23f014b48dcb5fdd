// Counting semaphores on values, as the thread kernel and the bounded buffer use them.
module SemaphoreSpec {

  // A semaphore and who is blocked on it, in the order they came: threads, or the calls they make.
  datatype Sem = Sem(val: int, queue: seq<nat>)
}
