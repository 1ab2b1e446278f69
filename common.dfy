/** Small value types shared by the stores: optional values and the outcome
    of reading one key from the device's persisted key-value storage. */
module Common {

  datatype Option<+T> = None | Some(value: T)

  datatype Result<+T> = Ok(value: T) | Err(message: string)

  /** What `AsyncStorage.getItem` produced: the stored string (None when the
      key was never written), or a raised storage error. */
  datatype StorageRead = Stored(saved: Option<string>) | ReadFailed
}
