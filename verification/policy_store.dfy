/** The policy store: the read-only table of policy rows loaded once at start-up,
    and the lookup the request handler runs against it. */
module PolicyStore {
  import opened Records

  /** One row of the policy table. The integer columns are the ones the handler
      converts with `int(...)`; the others are kept as text. */
  datatype PolicyRecord = PolicyRecord(
    policyNumber: int,
    age: int,
    repNumber: int,
    deductible: int,
    driverRating: int,
    make: string,
    sex: string,
    maritalStatus: string,
    policyType: string,
    vehicleCategory: string,
    vehiclePrice: string,
    pastNumberOfClaims: string,
    ageOfVehicle: string,
    ageOfPolicyHolder: string,
    agentType: string,
    addressChangeClaim: string,
    basePolicy: string)

  /** The table in file order. Policy numbers are not required to be unique. */
  type PolicyTable = seq<PolicyRecord>

  /** Filters the table on the policy number and takes the first row left:
      None when no row carries `id`, otherwise the earliest row that does. */
  function FindPolicy(table: PolicyTable, id: int): (r: Option<PolicyRecord>)
    ensures r.None? <==> forall k :: 0 <= k < |table| ==> table[k].policyNumber != id
    ensures r.Some? ==> exists k :: 0 <= k < |table| && table[k] == r.value && FirstMatch(table, id, k)
  {
    if table == [] then None
    else if table[0].policyNumber == id then
      assert FirstMatch(table, id, 0);
      Some(table[0])
    else
      var r := FindPolicy(table[1..], id);
      assert forall k :: 1 <= k < |table| ==> table[k] == table[1..][k - 1];
      assert r.Some? ==> exists k :: 0 <= k < |table| && table[k] == r.value && FirstMatch(table, id, k) by {
        if r.Some? {
          var k :| 0 <= k < |table[1..]| && table[1..][k] == r.value && FirstMatch(table[1..], id, k);
          assert FirstMatch(table, id, k + 1);
        }
      }
      r
  }

  /** Row `k` carries `id` and no earlier row does. */
  predicate FirstMatch(table: PolicyTable, id: int, k: int) {
    && 0 <= k < |table|
    && table[k].policyNumber == id
    && forall j :: 0 <= j < k ==> table[j].policyNumber != id
  }

  /** Whichever row is the first to carry `id`, the lookup returns that row;
      later duplicates of the policy number are never seen. */
  lemma FindPolicyIsFirstMatch(table: PolicyTable, id: int, k: int)
    requires FirstMatch(table, id, k)
    ensures FindPolicy(table, id) == Some(table[k])
  {
    var r := FindPolicy(table, id);
    var k' :| 0 <= k' < |table| && table[k'] == r.value && FirstMatch(table, id, k');
    assert k' == k;
  }
}
