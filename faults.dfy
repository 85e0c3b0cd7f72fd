/** The ways a Docket Socket run can end early. Each constructor names the Python exception or
    failed assertion it stands for; every one of them reaches the single `except` around the run
    (views.py:530), except `Stalled`, which stands for a run that never ends. */
module Faults {

  datatype Fault =
    | NoCategory              // makefolders: ValueError when no document type is selected
    | FolderExists(path: string) // makefolders: os.makedirs(primary_path) without exist_ok
    | NegativeQuota           // check_quota_and_get: assertion on a negative X-RateLimit-Remaining
    | Stalled                 // the source keeps waiting or re-requesting the same page forever
    | TypeError               // TypeError or AttributeError on a JSON value of the wrong shape
    | KeyError(key: string)   // a JSON key the code indexes directly is missing
    | NotAnInteger            // int() of a value that is not an integer literal
    | FormatError             // '%' formatting with an unsupported conversion character
    | WriteFailed(path: string) // open/write of an output file failed
    | Unbound(name: string)   // UnboundLocalError / NameError on a variable never assigned
    | LinkNotString           // getLinks: assertion that the link is a str
    | NoRecords               // docket_socket: assertion totalNumRecords > 0
    | CountMismatch           // docket_socket: assertion totalNumRecords == len(list_of_records)
    | FilesDropped            // docket_socket: files vanished during the scan with nothing quarantined
    | SheetName(name: string) // xlsxwriter add_worksheet: a name Excel does not accept

  datatype Result<T> = Ok(value: T) | Err(fault: Fault)
}
