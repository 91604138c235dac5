/**
 * The domain shapes shared by the dashboard and the plan client (types.ts).
 * They are values: the core never updates an incident or a resource.
 */
module Types {

  type Timestamp = int  // milliseconds since the epoch, as a JavaScript Date holds it

  datatype Severity = Low | Medium | High | Critical

  datatype IncidentType = Wildfire | Flood | StructuralFire | Medical | Hazmat

  datatype IncidentStatus = Reported | Dispatched | OnScene | Contained | Resolved

  datatype IncidentLocation = IncidentLocation(lat: real, lng: real, address: string)

  datatype Incident = Incident(
    id: string,
    kind: IncidentType,
    location: IncidentLocation,
    severity: Severity,
    status: IncidentStatus,
    timestamp: Timestamp,
    description: string)

  datatype ResourceType = Drone | FireEngine | Ambulance | HazmatUnit | AirTanker

  datatype ResourceStatus = Available | EnRoute | Active | Maintenance

  datatype ResourceLocation = ResourceLocation(lat: real, lng: real)

  datatype Resource = Resource(
    id: string,
    name: string,
    kind: ResourceType,
    status: ResourceStatus,
    location: ResourceLocation,
    capabilities: seq<string>)

  /** One assignment of a resource to an incident; the ids are references, never checked. */
  datatype Allocation = Allocation(resourceId: string, incidentId: string, task: string)

  datatype CommandPlan = CommandPlan(
    summary: string,
    nextSteps: seq<string>,
    allocations: seq<Allocation>,
    risks: seq<string>)
}
