/** Shared vocabulary: optional values and the status events that travel through the pipeline. */
module Events {

  datatype Option<+T> = None | Some(value: T)

  datatype Result<+T, +E> = Ok(value: T) | Err(error: E)

  // The portable volume statuses of the OpenAPI contract.
  datatype StorageStatus = PROVISIONING | RUNNING | FAILED | DELETING | DELETED

  datatype StatusEvent = StatusEvent(instanceID: string, status: StorageStatus, message: string)

  // The message of the synthetic event sent when a PVC is gone.
  const GONE_MESSAGE := "resource no longer exists"
}
