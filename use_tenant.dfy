// The tenant identity the data hooks read: slug and id, decoded from the stored token.
module UseTenant {
  /** `TenantInfo`: what the hooks know about the current tenant. */
  datatype TenantInfo = TenantInfo(slug: string, id: string)
}
