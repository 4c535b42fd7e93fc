/** The stored entities the backend reads and writes (src/users/models.py,
    src/suppliers/models.py, src/collectives/models.py) and the enumerations
    of src/users/enums.py. Only the columns the modelled code touches are
    kept. */
module Models {
  import opened Common

  /** A row of `users`. */
  datatype User = User(
    id: int,
    email: string,
    hashedPassword: string,
    userType: string,
    fullName: Option<string>,
    state: Option<string>,
    ageRange: Option<string>,
    industry: Option<string>,
    householdSize: Option<int>,
    role: string,
    chronicConditions: Option<string>)

  /** A row of `suppliers`. */
  datatype Supplier = Supplier(
    id: int,
    name: string,
    supplierType: string,
    contactEmail: Option<string>,
    website: Option<string>)

  /** A row of `supplier_bids`. */
  datatype SupplierBid = SupplierBid(
    supplierId: int,
    collectiveId: Option<int>,
    bidType: string,
    monthlyPremium: Option<real>,
    discountPercent: Option<real>,
    notes: Option<string>)

  /** A row of `collectives`. */
  datatype Collective = Collective(
    id: int,
    name: string,
    slug: string,
    description: string,
    targetIndustry: Option<string>,
    targetState: Option<string>,
    targetAgeRange: Option<string>,
    minHouseholdSize: Option<int>,
    maxHouseholdSize: Option<int>)

  /** A row of `collective_memberships`: (user_id, collective_id), unique per pair. */
  type Membership = (int, int)

  // Enumerations, in declaration order. The age ranges are written with an
  // en dash (U+2013), not a hyphen.
  const AgeRangeValues: seq<string> :=
    ["18\U{2013}25", "26\U{2013}34", "35\U{2013}44", "45\U{2013}54", "55\U{2013}64", "65+"]
  const IndustryValues: seq<string> :=
    ["Healthcare", "Manufacturing", "Construction", "Education", "Technology", "Finance",
     "Nonprofit", "Retail", "Business Consulting", "Oil and Gas", "Other"]
  const RoleMember := "Member"
  const RoleSupplier := "Insurance Supplier"
  const RoleProvider := "Healthcare Provider"
  const RoleAdmin := "admin"
  const RoleValues: seq<string> := [RoleMember, RoleSupplier, RoleProvider, RoleAdmin]
  const UserTypeValues: seq<string> := ["consumer", "employer", "provider_admin"]
}
