/** The store that holds each task's final record under its task id. */
module ResultStore {
  import opened PyJson

  class Store {
    /** The payload saved for each task id. */
    var entries: map<string, Json>

    constructor ()
      ensures entries == map[]
    {
      entries := map[];
    }

    /** `save_result`: stores `data` under `taskId`, replacing whatever was there. */
    method Save(taskId: string, data: Json)
      modifies this
      ensures entries == old(entries)[taskId := data]
    {
      entries := entries[taskId := data];
    }
  }
}
