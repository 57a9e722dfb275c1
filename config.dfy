/** The configuration block at the top of main.py: the dataset mode names the
    number of target classes, and any other mode is an error. */
module Config {
  datatype Result<T> = Success(value: T) | Failure(error: string)

  /** num_classes for a dataset mode. */
  function NumClasses(mode: string): (r: Result<nat>)
    ensures r.Success? <==> mode in {"cifar", "dogs", "tiny_imagenet"}
    ensures r.Success? ==> r.value == (if mode == "cifar" then 2 else 5)
    ensures r.Failure? ==> r.error == "Invalid dataset type"
  {
    if mode == "cifar" then Success(2)
    else if mode == "dogs" then Success(5)
    else if mode == "tiny_imagenet" then Success(5)
    else Failure("Invalid dataset type")
  }
}
