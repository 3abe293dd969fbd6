/** The records the monitor exchanges with its engines. */
module Rpc {
  import opened Prelude

  datatype DownloadGroup = DownloadGroup(id: string, kind: string, name: string, nameStatus: string,
                                         folderName: string, dir: string, itemCount: int, createdAt: int)

  datatype Uri = Uri(uri: string, status: string)

  datatype File = File(path: string, uris: seq<Uri>)

  datatype Task = Task(gid: string, title: string, status: string, totalLength: string, completedLength: string,
                       downloadSpeed: string, errorCode: string, errorMessage: string, dir: string,
                       files: seq<File>, group: Option<DownloadGroup>)

  /** A group name is stable, pending, fallback or degraded. */
  predicate IsGroupNameStatus(status: string) { status in {"stable", "pending", "fallback", "degraded"} }
}
