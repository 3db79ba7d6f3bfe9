/** The audit findings a bundle must cover, in ascending order. */
module RequiredFindings {
  const REQUIRED_FINDINGS: seq<string> := [
    "F-008", "F-014", "F-018", "F-049", "F-050", "F-059", "F-062", "F-065", "F-066", "F-067",
    "F-068", "F-069", "F-071", "F-072", "F-073", "F-114", "F-115", "F-116", "F-117", "F-118",
    "F-119", "F-120", "F-121", "F-122", "F-123", "F-124", "F-234", "F-235", "F-236", "F-237",
    "F-238", "F-239", "F-240", "F-241", "F-242", "F-243", "F-244", "F-245", "F-246", "F-247",
    "F-248", "F-312", "F-328", "F-329", "F-330", "F-361", "F-362", "F-363", "F-365", "F-366",
    "F-387", "F-388", "F-389", "F-390", "F-391", "F-392", "F-393", "F-394", "F-395", "F-396",
    "F-397", "F-398", "F-399", "F-403", "F-405", "F-406"]
}
