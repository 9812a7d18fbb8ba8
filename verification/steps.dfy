/**
 * The records a reconciliation plan is made of (functions/agent-backend/App.js): one step per
 * service, layer, resource or permission target, filed under a category of the plan.
 */
module Steps {
  import opened Json

  /** A `(service, resourceId, role)` grant: `service` of the granting resource is given `role` on the target. */
  datatype Grant = Grant(service: string, resourceId: string, role: string)

  datatype Step =
    | ServiceStep(serviceId: string)
    | LayerStep(layerId: string)
    | ResourceStep(resourceId: string, resource: Json)
    | PermissionStep(target: string, permissions: seq<Grant>)

  /** The categories of a plan, in the order the plan object declares them. */
  datatype Category =
    | CreateServices
    | CreateServiceLayers
    | CreateResources
    | CreatePermissions
    | UpdateResources
    | DeletePermissions
    | DeleteResources
    | DeleteServiceLayers
    | DeleteServices
}
